/** Waking waiters by closing a channel: the chat room's transcript, where every post closes the
  * current channel and replaces it, and the idle gate of the event processor. */
module Broadcast {
  import opened Options

  /** A channel used only to be closed. Closing one twice would panic. */
  class Chan {
    var closed: bool

    constructor ()
      ensures !closed
    {
      closed := false;
    }

    method Close()
      requires !closed
      modifies this
      ensures closed
    {
      closed := true;
    }
  }

  datatype Message = Message(sender: string, text: string)

  // ----- the room ------------------------------------------------------------------------

  class Room {
    var history: seq<Message>
    var changed: Chan
    /** Every channel there has been: channel i was current while there were i messages. */
    ghost var channels: seq<Chan>

    ghost predicate Valid()
      reads this, channels
    {
      && |channels| == |history| + 1 && changed == channels[|history|]
      && (forall i, j :: 0 <= i < j < |channels| ==> channels[i] != channels[j])
      && (forall i :: 0 <= i < |channels| ==> (channels[i].closed <==> i < |history|))
    }

    constructor ()
      ensures Valid() && history == [] && fresh(channels)
    {
      var c := new Chan();
      history, changed, channels := [], c, [c];
    }

    /** Appends a message and wakes everyone waiting; no channel is closed twice. */
    method Post(m: Message)
      requires Valid()
      modifies this, changed
      ensures Valid() && history == old(history) + [m]
      ensures channels == old(channels) + [changed] && fresh(changed)
    {
      history := history + [m];
      changed.Close();
      changed := new Chan();
      channels := channels + [changed];
    }

    /** One pass of a waiter under the lock: what is new after n, or the channel to wait on. */
    method Look(n: nat) returns (news: Option<seq<Message>>, total: nat, wait: Option<Chan>)
      requires Valid()
      ensures news.Some? <==> |history| > n
      ensures news.Some? ==> news.value == history[n..] && total == |history| && wait.None?
      ensures news.None? ==> wait == Some(channels[|history|])
    {
      if |history| > n { return Some(history[n..]), |history|, None; }
      return None, n, Some(changed);
    }

    /** The channel a waiter took while there was nothing after n is closed as soon as there is:
      * it never waits with unread messages, and never wakes without any new message. */
    lemma NoLostWakeUp(taken: nat, n: nat)
      requires Valid() && taken < |channels| && taken <= n
      ensures |history| > n ==> channels[taken].closed
      ensures channels[taken].closed <==> |history| > taken
    {
    }
  }

  // ----- the participants ----------------------------------------------------------------

  datatype Phase = Ready | Waiting(channel: nat) | Read(messages: seq<Message>, total: nat)

  /** A reader of the room: how much it counts as seen, and every message handed to it. */
  datatype Reader = Reader(seen: nat, phase: Phase, got: seq<Message>)

  /** Channel i is closed once there are more than i messages. */
  datatype State = State(history: seq<Message>, readers: seq<Reader>)

  /** The steps of the room: a post, and of reader r a look under the lock, a wake-up, an
    * abandoned wait, taking what was read, and catching up with its own post. */
  datatype Action = Post(m: Message) | Look(r: nat) | Wake(r: nat) | GiveUp(r: nat) | Take(r: nat) | CatchUp(r: nat)

  predicate Closed(s: State, channel: nat) { channel < |s.history| }

  predicate Enabled(s: State, a: Action) {
    match a
    case Post(_) => true
    case Look(r) => r < |s.readers| && s.readers[r].phase.Ready?
    case Wake(r) =>
      r < |s.readers| && s.readers[r].phase.Waiting? && Closed(s, s.readers[r].phase.channel)
    case GiveUp(r) => r < |s.readers| && s.readers[r].phase.Waiting?
    case Take(r) => r < |s.readers| && s.readers[r].phase.Read?
    case CatchUp(r) => r < |s.readers| && s.readers[r].phase.Ready?
  }

  function Apply(s: State, a: Action): State
    requires Enabled(s, a)
  {
    match a
    case Post(m) => s.(history := s.history + [m])
    case Look(r) =>
      var w := s.readers[r];
      s.(readers := s.readers[r := w.(phase :=
        if |s.history| > w.seen then Read(s.history[w.seen..], |s.history|) else Waiting(|s.history|))])
    case Wake(r) => s.(readers := s.readers[r := s.readers[r].(phase := Ready)])
    case GiveUp(r) => s.(readers := s.readers[r := s.readers[r].(phase := Ready)])
    case Take(r) =>
      var w := s.readers[r];
      s.(readers := s.readers[r := Reader(w.phase.total, Ready, w.got + w.phase.messages)])
    case CatchUp(r) => s.(readers := s.readers[r := s.readers[r].(seen := |s.history|)])
  }

  ghost predicate Runs(s: State, actions: seq<Action>, t: State)
    decreases |actions|
  {
    if actions == [] then s == t
    else Enabled(s, actions[0]) && Runs(Apply(s, actions[0]), actions[1..], t)
  }

  ghost predicate Sound(w: Reader, history: seq<Message>) {
    && w.seen <= |history|
    && match w.phase
       case Ready => true
       case Waiting(channel) => channel == w.seen
       case Read(messages, total) => w.seen < total <= |history| && messages == history[w.seen..total]
  }

  ghost predicate Inv(s: State) { forall r :: 0 <= r < |s.readers| ==> Sound(s.readers[r], s.history) }

  lemma StepKeeps(s: State, a: Action)
    requires Inv(s) && Enabled(s, a)
    ensures Inv(Apply(s, a)) && s.history <= Apply(s, a).history
  {
    var t := Apply(s, a);
    forall r | 0 <= r < |t.readers| ensures Sound(t.readers[r], t.history) {
      assert Sound(s.readers[r], s.history);
    }
  }

  lemma {:induction false} RunKeeps(s: State, actions: seq<Action>, t: State)
    requires Inv(s) && Runs(s, actions, t)
    ensures Inv(t) && |t.readers| == |s.readers| && s.history <= t.history
    decreases |actions|
  {
    if actions != [] {
      StepKeeps(s, actions[0]);
      RunKeeps(Apply(s, actions[0]), actions[1..], t);
    }
  }

  /** In every reachable state a waiting reader can wake if and only if it has something to read, and can
    * give up in any case. */
  lemma NeverStuck(s: State, actions: seq<Action>, t: State, r: nat)
    requires Inv(s) && Runs(s, actions, t)
    requires r < |t.readers| && t.readers[r].phase.Waiting?
    ensures Enabled(t, Wake(r)) <==> |t.history| > t.readers[r].seen
    ensures Enabled(t, GiveUp(r))
  {
    RunKeeps(s, actions, t);
    assert Sound(t.readers[r], t.history);
  }

  /** A waiting reader that has something to read can wake, look and take it: it is handed all that it has
    * not seen. One that gives up, or wakes, has seen no more than before. */
  lemma WokenReads(s: State, actions: seq<Action>, t: State, r: nat)
    requires Inv(s) && Runs(s, actions, t)
    requires r < |t.readers| && t.readers[r].phase.Waiting? && |t.history| > t.readers[r].seen
    ensures var w := t.readers[r];
      var ready := t.(readers := t.readers[r := Reader(w.seen, Ready, w.got)]);
      && Apply(t, GiveUp(r)) == ready && Enabled(t, Wake(r)) && Apply(t, Wake(r)) == ready
      && Runs(t, [Wake(r), Look(r), Take(r)],
              t.(readers := t.readers[r := Reader(|t.history|, Ready, w.got + t.history[w.seen..])]))
  {
    NeverStuck(s, actions, t, r);
    var w := t.readers[r];
    var t1 := Apply(t, Wake(r));
    var t2 := Apply(t1, Look(r));
    var t3 := Apply(t2, Take(r));
    assert Runs(t3, [], t3);
    assert [Take(r)][1..] == [] && Runs(t2, [Take(r)], t3);
    assert [Look(r), Take(r)][1..] == [Take(r)] && Runs(t1, [Look(r), Take(r)], t3);
    assert [Wake(r), Look(r), Take(r)][1..] == [Look(r), Take(r)] && Runs(t, [Wake(r), Look(r), Take(r)], t3);
    assert t3.readers == t.readers[r := Reader(|t.history|, Ready, w.got + t.history[w.seen..])];
  }

  /** What a reader has been handed is the transcript up to where it counts as seen. */
  ghost predicate Complete(w: Reader, history: seq<Message>) {
    w.seen <= |history| && w.got == history[..w.seen]
  }

  /** A reader that never catches up past its own post is handed every message once, in order. */
  lemma {:induction false} ReadsEverything(s: State, actions: seq<Action>, t: State, r: nat)
    requires Inv(s) && Runs(s, actions, t) && CatchUp(r) !in actions
    requires r < |s.readers| && Complete(s.readers[r], s.history)
    ensures r < |t.readers| && Complete(t.readers[r], t.history)
    decreases |actions|
  {
    if actions != [] {
      var a := actions[0];
      assert a in actions && Sound(s.readers[r], s.history);
      StepKeeps(s, a);
      ReadsEverything(Apply(s, a), actions[1..], t, r);
    }
  }

  // ----- replying ------------------------------------------------------------------------

  function Posts(actions: seq<Action>): seq<Message>
    decreases |actions|
  {
    if actions == [] then []
    else if actions[0].Post? then [actions[0].m] + Posts(actions[1..])
    else Posts(actions[1..])
  }

  /** The steps of everyone but reader r. */
  predicate Others(a: Action, r: nat) {
    match a
    case Post(_) => true
    case Look(q) => q != r
    case Wake(q) => q != r
    case GiveUp(q) => q != r
    case Take(q) => q != r
    case CatchUp(q) => q != r
  }

  lemma {:induction false} OthersOnlyPost(s: State, actions: seq<Action>, t: State, r: nat)
    requires Inv(s) && Runs(s, actions, t) && r < |s.readers| && forall a :: a in actions ==> Others(a, r)
    ensures t.history == s.history + Posts(actions)
    ensures r < |t.readers| && t.readers[r] == s.readers[r]
    decreases |actions|
  {
    if actions != [] {
      assert actions[0] in actions;
      StepKeeps(s, actions[0]);
      OthersOnlyPost(Apply(s, actions[0]), actions[1..], t, r);
    }
  }

  /** The messages at some positions of the transcript. */
  function At(history: seq<Message>, positions: seq<int>): seq<Message>
    requires forall k :: 0 <= k < |positions| ==> 0 <= positions[k] < |history|
  {
    seq(|positions|, k requires 0 <= k < |positions| => history[positions[k]])
  }

  /** Positions in ascending order, none before `from` and none at or after `to`. */
  ghost predicate Between(positions: seq<int>, from: int, to: int) {
    && (forall i :: 0 <= i < |positions| ==> from <= positions[i] < to)
    && (forall i, j :: 0 <= i < j < |positions| ==> positions[i] < positions[j])
  }

  /** One step hands a reader nothing, or the messages from what it counts as seen to what it will. */
  lemma StepHands(s: State, a: Action, r: nat) returns (positions: seq<int>)
    requires Inv(s) && Enabled(s, a) && r < |s.readers|
    ensures var t := Apply(s, a);
      && r < |t.readers| && s.readers[r].seen <= t.readers[r].seen <= |t.history|
      && Between(positions, s.readers[r].seen, t.readers[r].seen)
      && t.readers[r].got == s.readers[r].got + At(t.history, positions)
  {
    StepKeeps(s, a);
    var t := Apply(s, a);
    assert Sound(s.readers[r], s.history) && Sound(t.readers[r], t.history);
    positions := [];
    if a == Take(r) {
      var w := s.readers[r];
      positions := seq(w.phase.total - w.seen, k => w.seen + k);
      assert At(t.history, positions) == w.phase.messages;
    } else {
      assert t.readers[r].got == s.readers[r].got;
    }
  }

  lemma Extends(history: seq<Message>, longer: seq<Message>, a: seq<int>, b: seq<int>)
    requires history <= longer
    requires forall k :: 0 <= k < |a| ==> 0 <= a[k] < |history|
    requires forall k :: 0 <= k < |b| ==> 0 <= b[k] < |longer|
    ensures forall k :: 0 <= k < |a + b| ==> 0 <= (a + b)[k] < |longer|
    ensures At(longer, a + b) == At(history, a) + At(longer, b)
  {
  }

  /** Whatever happens, a reader is handed only messages from where it counts as seen, each at most
    * once and in order: what lies before that is never read again. */
  lemma {:induction false} HandedFromSeen(s: State, actions: seq<Action>, t: State, r: nat)
    returns (positions: seq<int>)
    requires Inv(s) && Runs(s, actions, t) && r < |s.readers|
    ensures r < |t.readers| && s.readers[r].seen <= t.readers[r].seen <= |t.history|
    ensures Between(positions, s.readers[r].seen, t.readers[r].seen)
    ensures t.readers[r].got == s.readers[r].got + At(t.history, positions)
    decreases |actions|
  {
    if actions == [] {
      positions := [];
      assert Sound(s.readers[r], s.history);
    } else {
      hide Inv;
      var next := Apply(s, actions[0]);
      StepKeeps(s, actions[0]);
      RunKeeps(next, actions[1..], t);
      var first := StepHands(s, actions[0], r);
      var rest := HandedFromSeen(next, actions[1..], t, r);
      hide Runs, Apply, Enabled;
      positions := HandedTwice(s.readers[r], next, t, r, first, rest);
    }
  }

  lemma HandedTwice(w: Reader, next: State, t: State, r: nat, first: seq<int>, rest: seq<int>)
    returns (positions: seq<int>)
    requires r < |next.readers| && r < |t.readers| && next.history <= t.history
    requires w.seen <= next.readers[r].seen <= |next.history|
    requires next.readers[r].seen <= t.readers[r].seen <= |t.history|
    requires Between(first, w.seen, next.readers[r].seen)
    requires Between(rest, next.readers[r].seen, t.readers[r].seen)
    requires next.readers[r].got == w.got + At(next.history, first)
    requires t.readers[r].got == next.readers[r].got + At(t.history, rest)
    ensures Between(positions, w.seen, t.readers[r].seen)
    ensures t.readers[r].got == w.got + At(t.history, positions)
  {
    Extends(next.history, t.history, first, rest);
    positions := first + rest;
    hide At;
    var a, b := At(next.history, first), At(t.history, rest);
    assert w.got + a + b == w.got + (a + b);
  }

  /** A reader composes a reply while others act, posts it, and then counts the whole transcript as
    * seen. So it has skipped everything posted since it last looked, its own reply among it; and it
    * has skipped nothing but that reply exactly when the transcript is then one longer than what it
    * had seen, which it could check. */
  lemma RepliesSkip(s: State, before: seq<Action>, mid: State, reply: Message, after: seq<Action>, t: State, r: nat)
    requires Inv(s) && r < |s.readers| && s.readers[r].phase.Ready?
    requires Runs(s, before, mid) && Runs(Apply(mid, Post(reply)), after, t)
    requires forall a :: a in before || a in after ==> Others(a, r)
    ensures Enabled(t, CatchUp(r)) && s.readers[r].seen <= |s.history|
    ensures var end, seen := Apply(t, CatchUp(r)), s.readers[r].seen;
      && end.readers[r].got == s.readers[r].got && seen <= end.readers[r].seen == |end.history|
      && end.history[seen..] == s.history[seen..] + Posts(before) + [reply] + Posts(after)
      && (end.history[seen..] == [reply] <==> |end.history| == seen + 1)
  {
    assert Sound(s.readers[r], s.history);
    hide Inv, Runs, Posts, Others;
    OthersOnlyPost(s, before, mid, r);
    RunKeeps(s, before, mid);
    StepKeeps(mid, Post(reply));
    OthersOnlyPost(Apply(mid, Post(reply)), after, t, r);
    var seen := s.readers[r].seen;
    SkippedAre(s.history, seen, Posts(before), reply, Posts(after), t.history);
  }

  lemma SkippedAre(history: seq<Message>, seen: nat, a: seq<Message>, reply: Message, b: seq<Message>,
      all: seq<Message>)
    requires seen <= |history| && all == history + a + [reply] + b
    ensures all[seen..] == history[seen..] + a + [reply] + b
    ensures all[seen..] == [reply] <==> |all| == seen + 1
  {
    if |all| == seen + 1 { assert history[seen..] + a + [reply] + b == [reply]; }
  }

  /** What is skipped is never read: however the conversation goes on, the reader is handed only
    * messages posted after it caught up. */
  lemma SkippedNeverRead(t: State, later: seq<Action>, u: State, r: nat) returns (positions: seq<int>)
    requires Inv(t) && Enabled(t, CatchUp(r)) && Runs(Apply(t, CatchUp(r)), later, u)
    ensures r < |u.readers| && Between(positions, |t.history|, |u.history|)
    ensures u.readers[r].got == t.readers[r].got + At(u.history, positions)
  {
    StepKeeps(t, CatchUp(r));
    positions := HandedFromSeen(Apply(t, CatchUp(r)), later, u, r);
  }

  // ----- the idle gate -------------------------------------------------------------------

  class IdleGate {
    var idleCh: Chan
    /** Every channel a waiter may hold. */
    ghost var issued: set<Chan>

    /** Only the current channel may still be open. */
    ghost predicate Valid()
      reads this, issued
    {
      idleCh in issued && forall c :: c in issued && c != idleCh ==> c.closed
    }

    /** A session starts idle. */
    constructor ()
      ensures Valid() && idleCh.closed && fresh(issued)
    {
      var c := new Chan();
      c.Close();
      idleCh, issued := c, {c};
    }

    /** Reopens the gate; an open channel, on which someone may wait, is never replaced. */
    method MarkRunning()
      requires Valid()
      modifies this
      ensures Valid() && !idleCh.closed
      ensures !old(idleCh.closed) ==> idleCh == old(idleCh)
      ensures old(idleCh.closed) ==> fresh(idleCh)
      ensures issued == old(issued) + {idleCh}
    {
      if idleCh.closed {
        idleCh := new Chan();
        issued := issued + {idleCh};
      }
    }

    /** Releases everyone: no channel ever handed out is left open, and none is closed twice. */
    method MarkIdle()
      requires Valid()
      modifies idleCh
      ensures Valid() && issued == old(issued) && idleCh == old(idleCh)
      ensures forall c :: c in issued ==> c.closed
    {
      if !idleCh.closed { idleCh.Close(); }
    }

    method IdleSignal() returns (c: Chan)
      requires Valid()
      ensures c == idleCh && c in issued
    {
      c := idleCh;
    }

    method IsIdle() returns (idle: bool)
      requires Valid()
      ensures idle <==> forall c :: c in issued ==> c.closed
    {
      var c := IdleSignal();
      idle := c.closed;
    }
  }
}
