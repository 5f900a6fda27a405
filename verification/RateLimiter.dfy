/** The sliding-window rate limiter: each tool's recent calls are kept in one slice, filtered in
  * place on every call. */
module RateLimiter {
  import opened Slices

  // ----- what the limiter should do ------------------------------------------------------

  /** The times that still count at `now`. */
  function Live(times: seq<int>, now: int, window: int): seq<int> {
    if times == [] then []
    else
      var n := |times| - 1;
      var before := Live(times[..n], now, window);
      if now - times[n] < window then before + [times[n]] else before
  }

  /** One call of a tool against its full log of admitted calls. */
  function Admit(log: seq<int>, now: int, max: int, window: int): seq<int> {
    if |Live(log, now, window)| >= max then log else log + [now]
  }

  function AdmitAll(calls: seq<int>, max: int, window: int): seq<int> {
    if calls == [] then []
    else Admit(AdmitAll(calls[..|calls| - 1], max, window), calls[|calls| - 1], max, window)
  }

  ghost predicate AtMost(times: seq<int>, now: int) { forall i :: 0 <= i < |times| ==> times[i] <= now }

  /** The calls admitted within a half-open interval of the window's length. */
  function Within(log: seq<int>, from: int, window: int): seq<int> {
    if log == [] then []
    else
      var n := |log| - 1;
      var before := Within(log[..n], from, window);
      if from <= log[n] < from + window then before + [log[n]] else before
  }

  lemma {:induction false} AdmittedInOrder(calls: seq<int>, max: int, window: int)
    requires Nondecreasing(calls)
    ensures Nondecreasing(AdmitAll(calls, max, window))
    ensures calls != [] ==> AtMost(AdmitAll(calls, max, window), calls[|calls| - 1])
  {
    if calls != [] { AdmittedInOrder(calls[..|calls| - 1], max, window); }
  }

  // Up to now, an interval of the window's length that reaches past now holds only live calls.
  lemma {:induction false} WithinIsLive(log: seq<int>, from: int, now: int, window: int)
    requires from <= now < from + window && AtMost(log, now)
    ensures |Within(log, from, window)| <= |Live(log, now, window)|
  {
    if log != [] { WithinIsLive(log[..|log| - 1], from, now, window); }
  }

  /** Any half-open interval of the window's length holds at most `max` admitted calls. */
  ghost predicate Bounded(log: seq<int>, max: int, window: int) {
    forall from :: |Within(log, from, window)| <= if max < 0 then 0 else max
  }

  lemma AdmitKeepsBound(log: seq<int>, now: int, max: int, window: int)
    requires AtMost(log, now) && Bounded(log, max, window)
    ensures Bounded(Admit(log, now, max, window), max, window)
  {
    var next := Admit(log, now, max, window);
    forall from ensures |Within(next, from, window)| <= if max < 0 then 0 else max {
      assert |Within(log, from, window)| <= if max < 0 then 0 else max;
      if next != log {
        assert next[..|log|] == log;
        if from <= now < from + window { WithinIsLive(log, from, now, window); }
      }
    }
  }

  /** The limiter never exceeds its bound, whatever the calls. */
  lemma {:induction false} WindowBound(calls: seq<int>, max: int, window: int)
    requires Nondecreasing(calls)
    ensures Bounded(AdmitAll(calls, max, window), max, window)
  {
    if calls != [] {
      var n := |calls| - 1;
      WindowBound(calls[..n], max, window);
      AdmittedInOrder(calls[..n], max, window);
      AdmitKeepsBound(AdmitAll(calls[..n], max, window), calls[n], max, window);
    }
  }

  lemma {:induction false} LiveIsWithin(log: seq<int>, now: int, window: int)
    requires AtMost(log, now)
    ensures Live(log, now, window) == Within(log, now - window + 1, window)
  {
    if log != [] { LiveIsWithin(log[..|log| - 1], now, window); }
  }

  lemma NoneAdmitted(max: int, window: int)
    ensures AdmitAll([], max, window) == []
  {
  }

  /** A call is denied exactly when the window that ends with it is full. */
  lemma DeniedIffFull(calls: seq<int>, now: int, max: int, window: int)
    requires Nondecreasing(calls + [now]) && max >= 0
    ensures var log := AdmitAll(calls, max, window);
      Admit(log, now, max, window) == log <==> |Within(log, now - window + 1, window)| == max
  {
    hide Live, Within, AdmitAll;
    var log := AdmitAll(calls, max, window);
    assert Nondecreasing(calls) by {
      assert forall i :: 0 <= i < |calls| ==> (calls + [now])[i] == calls[i];
    }
    AdmittedInOrder(calls, max, window);
    assert AtMost(log, now) by {
      if calls == [] { NoneAdmitted(max, window); }
      else { assert (calls + [now])[|calls| - 1] <= (calls + [now])[|calls|]; }
    }
    LiveIsWithin(log, now, window);
    WindowBound(calls, max, window);
    assert |Within(log, now - window + 1, window)| <= max;
    assert |log + [now]| != |log|;
  }

  // ----- forgetting expired calls --------------------------------------------------------

  ghost predicate Expired(log: seq<int>, k: int, now: int, window: int) {
    k <= |log| && forall j :: 0 <= j < k ==> now - log[j] >= window
  }

  lemma LiveAppend(times: seq<int>, t: int, now: int, window: int)
    ensures Live(times + [t], now, window) ==
      if now - t < window then Live(times, now, window) + [t] else Live(times, now, window)
  {
    assert (times + [t])[..|times|] == times;
  }

  lemma {:induction false} AllExpired(log: seq<int>, now: int, window: int)
    requires Expired(log, |log|, now, window)
    ensures Live(log, now, window) == []
  {
    if log != [] { AllExpired(log[..|log| - 1], now, window); }
  }

  lemma {:induction false} ExpiredDoNotCount(log: seq<int>, k: nat, now: int, window: int)
    requires Expired(log, k, now, window)
    ensures Live(log[k..], now, window) == Live(log, now, window)
  {
    hide Live;
    if k == |log| {
      AllExpired(log, now, window);
      AllExpired(log[k..], now, window);
    } else {
      var n := |log| - 1;
      ExpiredDoNotCount(log[..n], k, now, window);
      assert log[k..] == log[..n][k..] + [log[n]] && log == log[..n] + [log[n]];
      LiveAppend(log[..n][k..], log[n], now, window);
      LiveAppend(log[..n], log[n], now, window);
    }
  }

  // In a log in order, the calls that count are its end.
  lemma {:induction false} LiveIsSuffix(log: seq<int>, now: int, window: int)
    requires Nondecreasing(log)
    ensures |Live(log, now, window)| <= |log|
    ensures var k := |log| - |Live(log, now, window)|;
      Live(log, now, window) == log[k..] && Expired(log, k, now, window)
  {
    if log != [] {
      var n := |log| - 1;
      LiveIsSuffix(log[..n], now, window);
      var k := n - |Live(log[..n], now, window)|;
      if now - log[n] < window {
        assert log[k..] == log[..n][k..] + [log[n]];
      } else {
        assert forall j :: 0 <= j <= n ==> log[j] <= log[n];
        if k < n { assert log[k..n][0] == log[k]; LiveCounts(log[..n], now, window, k); }
        assert log[|log|..] == [];
      }
    }
  }

  lemma {:induction false} LiveCounts(log: seq<int>, now: int, window: int, k: int)
    requires 0 <= k < |log| && Live(log, now, window) == log[k..]
    ensures now - log[k] < window
  {
    AllLive(log, now, window);
    assert log[k..][0] == log[k];
  }

  lemma {:induction false} AllLive(log: seq<int>, now: int, window: int)
    ensures forall i :: 0 <= i < |Live(log, now, window)| ==> now - Live(log, now, window)[i] < window
  {
    if log != [] { AllLive(log[..|log| - 1], now, window); }
  }

  /** Filters in place: an entry is overwritten only after it has been read. */
  method DropExpired(times: Slice, now: int, window: int)
    requires times.Valid()
    modifies times`len, times.data
    ensures times.Valid() && times.data == old(times.data)
    ensures times.Contents() == Live(old(times.Contents()), now, window)
  {
    hide Live;
    ghost var was := times.Contents();
    assert Live(was[..0], now, window) == [] by { NoneLive(now, window); }
    var data, n, kept := times.data, times.len, 0;
    for i := 0 to n
      invariant 0 <= kept <= i && n == times.len <= data.Length && data == times.data
      invariant data[..kept] == Live(was[..i], now, window)
      invariant forall k :: i <= k < n ==> data[k] == was[k]
    {
      var t := data[i];
      LiveAppend(was[..i], t, now, window);
      assert was[..i + 1] == was[..i] + [t];
      if now - t < window {
        data[kept] := t;
        kept := kept + 1;
      }
    }
    assert was[..n] == was;
    times.len := kept;
  }

  lemma NoneLive(now: int, window: int)
    ensures Live([], now, window) == []
  {
  }

  // ----- the limiter ---------------------------------------------------------------------

  class Limiter {
    const max: int
    const window: int
    var calls: map<string, Slice>
    /** Every admitted call of every tool, and the time of the latest call. */
    ghost var logs: map<string, seq<int>>
    ghost var clock: int
    ghost var repr: set<object>

    ghost function Log(tool: string): seq<int> reads this {
      if tool in logs then logs[tool] else []
    }

    ghost predicate Separate()
      reads this, repr
    {
      && this !in repr
      && (forall tool :: tool in calls ==> calls[tool] in repr && calls[tool].data in repr && calls[tool].Valid())
      && (forall a, b :: a in calls && b in calls && a != b ==>
            calls[a] != calls[b] && calls[a].data != calls[b].data)
    }

    ghost function Kept(tool: string): seq<int>
      reads this, repr
      requires Separate()
    {
      if tool in calls then calls[tool].Contents() else []
    }

    /** A tool's slice is the end of its log; the rest of the log has expired. */
    ghost predicate Follows(tool: string)
      reads this, repr
      requires Separate()
    {
      FollowsLog(Kept(tool), Log(tool), clock, max, window)
    }

    ghost predicate Valid()
      reads this, repr
    {
      Separate() && forall tool :: Follows(tool)
    }

    constructor (max: int, window: int, ghost now: int)
      ensures Valid() && this.max == max && this.window == window && logs == map[] && repr == {} && clock == now
    {
      this.max, this.window, calls, logs, clock, repr := max, window, map[], map[], now, {};
    }

    /** Makes a tool's slice on its first call. */
    method Prepare(tool: string)
      requires Separate()
      modifies this`calls, this`repr
      ensures Separate() && tool in calls && fresh(repr - old(repr))
      ensures forall other :: Kept(other) == old(Kept(other))
    {
      if tool !in calls {
        var times := new Slice();
        calls := calls[tool := times];
        repr := repr + {times, times.data};
      }
    }

    /** Filters and counts a tool's recent calls, recording this one unless there are too many. */
    method Count(tool: string, now: int) returns (deny: bool)
      requires Separate() && tool in calls
      modifies this`repr, repr
      ensures Separate() && fresh(repr - old(repr))
      ensures deny <==> |Live(old(Kept(tool)), now, window)| >= max
      ensures Kept(tool) == Live(old(Kept(tool)), now, window) + if deny then [] else [now]
      ensures forall other :: other != tool ==> Kept(other) == old(Kept(other))
    {
      var times := calls[tool];
      DropExpired(times, now, window);
      deny := times.len >= max;
      if !deny {
        times.Append(now);
        repr := repr + {times.data};
      }
    }

    method Decide(tool: string, now: int) returns (deny: bool)
      requires Separate()
      modifies this`calls, this`repr, repr
      ensures Separate() && fresh(repr - old(repr))
      ensures deny <==> |Live(old(Kept(tool)), now, window)| >= max
      ensures Kept(tool) == Live(old(Kept(tool)), now, window) + if deny then [] else [now]
      ensures forall other :: other != tool ==> Kept(other) == old(Kept(other))
    {
      Prepare(tool);
      deny := Count(tool, now);
    }

    /** Admits or denies a call by the tool's whole log, though only its recent end is kept. */
    method Hook(tool: string, now: int) returns (deny: bool)
      requires Valid() && now >= clock
      modifies this, repr
      ensures Valid() && clock == now && fresh(repr - old(repr))
      ensures deny <==> |Live(old(Log(tool)), now, window)| >= max
      ensures Log(tool) == Admit(old(Log(tool)), now, max, window)
      ensures forall other :: other != tool ==> Log(other) == old(Log(other))
    {
      hide Live, FollowsLog, Admit;
      assert Follows(tool);
      ghost var log, was, kept := Log(tool), clock, Kept(tool);
      deny := Decide(tool, now);
      AdmitFollows(kept, log, clock, now, max, window);
      logs, clock := logs[tool := Admit(log, now, max, window)], now;
      forall other ensures Follows(other) {
        if other != tool {
          assert old(Follows(other));
          FollowsLater(Kept(other), Log(other), was, now, max, window);
        }
      }
    }
  }

  /** What is kept of a log: its end, the rest having expired. The log itself is in order and
    * within the bound. */
  ghost predicate FollowsLog(kept: seq<int>, log: seq<int>, clock: int, max: int, window: int) {
    Ends(kept, log, clock, window) && Bounded(log, max, window)
  }

  ghost predicate Ends(kept: seq<int>, log: seq<int>, clock: int, window: int) {
    && Nondecreasing(log) && AtMost(log, clock)
    && |kept| <= |log| && kept == log[|log| - |kept|..] && Expired(log, |log| - |kept|, clock, window)
  }

  lemma FollowsLater(kept: seq<int>, log: seq<int>, clock: int, now: int, max: int, window: int)
    requires FollowsLog(kept, log, clock, max, window) && clock <= now
    ensures FollowsLog(kept, log, now, max, window)
  {
  }

  lemma LiveEnds(kept: seq<int>, log: seq<int>, clock: int, now: int, window: int)
    requires Ends(kept, log, clock, window) && clock <= now
    ensures Live(kept, now, window) == Live(log, now, window)
    ensures Ends(Live(kept, now, window), log, now, window)
  {
    hide Live;
    ExpiredDoNotCount(log, |log| - |kept|, now, window);
    LiveIsSuffix(log, now, window);
  }

  lemma AppendEnds(kept: seq<int>, log: seq<int>, now: int, window: int)
    requires Ends(kept, log, now, window)
    ensures Ends(kept + [now], log + [now], now, window)
  {
    var k := |log| - |kept|;
    assert (log + [now])[k..] == log[k..] + [now];
  }

  lemma AdmitFollows(kept: seq<int>, log: seq<int>, clock: int, now: int, max: int, window: int)
    requires FollowsLog(kept, log, clock, max, window) && clock <= now
    ensures Live(kept, now, window) == Live(log, now, window)
    ensures FollowsLog(Live(kept, now, window) + if |Live(log, now, window)| >= max then [] else [now],
                       Admit(log, now, max, window), now, max, window)
  {
    hide Live, Ends, Bounded;
    LiveEnds(kept, log, clock, now, window);
    AppendEnds(Live(kept, now, window), log, now, window);
    assert Live(kept, now, window) + [] == Live(kept, now, window);
    EndsAtMost(kept, log, clock, now, window);
    AdmitKeepsBound(log, now, max, window);
  }

  lemma EndsAtMost(kept: seq<int>, log: seq<int>, clock: int, now: int, window: int)
    requires Ends(kept, log, clock, window) && clock <= now
    ensures AtMost(log, now)
  {
  }
}
