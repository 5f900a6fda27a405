/** The in-process policy engine: policies are stably sorted by specificity and
  * restrictiveness, and the first that matches a call decides it. */
module Policies {
  import opened Options
  import opened Text

  datatype ToolCall = ToolCall(name: string, server: string, args: string)

  /** What a predicate or an ask-user handler answers. */
  datatype Answer = Answer(yes: bool) | Broken

  datatype Policy = Policy(
    tool: string, decision: string, when: Option<ToolCall -> Answer>, ask: Option<ToolCall -> Answer>,
    name: string)

  const WILDCARD := "*"
  const WORKSPACE_ONLY := "workspace_only"
  const APPROVE := "APPROVE"
  const DENY := "DENY"
  const ASK_USER := "ASK_USER"

  function Label(p: Policy): string { if p.name != "" then p.name else p.tool }

  predicate MatchesTarget(target: string, call: ToolCall) {
    if target == WILDCARD then true
    else if call.server != "" then
      if HasSuffix(target, "/*") then target[..|target| - 2] == call.server
      else target == call.server + "/" + call.name
    else target == call.name
  }

  function Scope(target: string): nat {
    if target == WILDCARD then 2 else if HasSuffix(target, "/*") then 1 else 0
  }

  function DecisionRank(decision: string): nat {
    if decision == DENY then 0 else if decision == ASK_USER then 1 else if decision == APPROVE then 2 else 3
  }

  predicate Known(decision: string) { decision == DENY || decision == ASK_USER || decision == APPROVE }

  // ----- evaluation order ----------------------------------------------------------------

  /** The order of the sort: negative, zero or positive as a ranks before, with or after b. */
  function Compare(a: Policy, b: Policy): int {
    var d := Scope(a.tool) - Scope(b.tool);
    if d != 0 then d else DecisionRank(a.decision) - DecisionRank(b.decision)
  }

  /** Declared position i is evaluated before declared position j. */
  predicate Before(ps: seq<Policy>, i: int, j: int)
    requires 0 <= i < |ps| && 0 <= j < |ps|
  {
    Compare(ps[i], ps[j]) < 0 || (Compare(ps[i], ps[j]) == 0 && i < j)
  }

  lemma BeforeTransitive(ps: seq<Policy>, i: int, j: int, k: int)
    requires 0 <= i < |ps| && 0 <= j < |ps| && 0 <= k < |ps|
    requires Before(ps, i, j) && (Before(ps, j, k) || (Compare(ps[j], ps[k]) <= 0 && j < k))
    ensures Before(ps, i, k) && !Before(ps, k, i)
  {
  }

  lemma BehindComes(ps: seq<Policy>, i: int, j: int)
    requires 0 <= i < |ps| && 0 <= j < |ps| && Compare(ps[i], ps[j]) > 0
    ensures Before(ps, j, i)
  {
  }

  ghost predicate Within(order: seq<nat>, n: int) { forall k :: 0 <= k < |order| ==> order[k] < n }

  // Inserts position n after every position that does not rank behind it.
  function Insert(ps: seq<Policy>, order: seq<nat>, n: nat): (r: seq<nat>)
    requires n < |ps| && Within(order, |ps|)
    ensures |r| == |order| + 1 && Within(r, |ps|)
    ensures forall i :: i in r <==> i in order || i == n
  {
    if order == [] then [n]
    else if Compare(ps[order[|order| - 1]], ps[n]) <= 0 then order + [n]
    else Insert(ps, order[..|order| - 1], n) + [order[|order| - 1]]
  }

  /** The declared positions below n, stably sorted. */
  function Order(ps: seq<Policy>, n: nat): (r: seq<nat>)
    requires n <= |ps|
    ensures |r| == n && Within(r, n) && Within(r, |ps|)
    ensures forall i: nat :: i in r <==> i < n
  {
    if n == 0 then []
    else
      var r := Insert(ps, Order(ps, n - 1), n - 1);
      assert forall k :: 0 <= k < n ==> r[k] in r;
      r
  }

  function Sorted(ps: seq<Policy>): (r: seq<Policy>)
    ensures |r| == |ps| && forall k :: 0 <= k < |r| ==> r[k] == ps[Order(ps, |ps|)[k]]
  {
    var order := Order(ps, |ps|);
    seq(|ps|, k requires 0 <= k < |ps| => ps[order[k]])
  }

  ghost predicate Increasing(ps: seq<Policy>, order: seq<nat>) {
    && Within(order, |ps|)
    && (forall k, l :: 0 <= k < l < |order| ==> Before(ps, order[k], order[l]))
  }

  lemma {:induction false} InsertIncreasing(ps: seq<Policy>, order: seq<nat>, n: nat)
    requires n < |ps| && Increasing(ps, order) && Within(order, n)
    ensures Increasing(ps, Insert(ps, order, n))
  {
    hide Compare;
    if order != [] {
      var last, rest := order[|order| - 1], order[..|order| - 1];
      if Compare(ps[last], ps[n]) <= 0 {
        forall k | 0 <= k < |order| ensures Before(ps, order[k], n) {
          if k < |order| - 1 {
            assert Before(ps, order[k], last);
            BeforeTransitive(ps, order[k], last, n);
          }
        }
      } else {
        InsertIncreasing(ps, rest, n);
        var q := Insert(ps, rest, n);
        BehindComes(ps, last, n);
        forall k | 0 <= k < |q| ensures Before(ps, q[k], last) {
          assert q[k] in q;
          if q[k] != n {
            var m :| 0 <= m < |rest| && rest[m] == q[k];
            assert Before(ps, order[m], order[|order| - 1]);
          }
        }
      }
    }
  }

  /** The evaluation order is the stable one: every declared position once, by scope, then
    * decision, then position. */
  lemma {:induction false} OrderIncreasing(ps: seq<Policy>, n: nat)
    requires n <= |ps|
    ensures Increasing(ps, Order(ps, n))
  {
    if n > 0 {
      OrderIncreasing(ps, n - 1);
      InsertIncreasing(ps, Order(ps, n - 1), n - 1);
    }
  }

  lemma IncreasingDistinct(ps: seq<Policy>, a: seq<nat>, k: int, l: int)
    requires Increasing(ps, a) && 0 <= k < |a| && 0 <= l < |a| && a[k] == a[l]
    ensures k == l
  {
  }

  lemma LastIsLast(ps: seq<Policy>, a: seq<nat>, b: seq<nat>)
    requires Increasing(ps, a) && Increasing(ps, b) && a != [] && b != []
    requires a[|a| - 1] in b && b[|b| - 1] in a
    ensures a[|a| - 1] == b[|b| - 1]
  {
    hide Compare;
    var m, n := |a| - 1, |b| - 1;
    var k :| 0 <= k < |b| && b[k] == a[m];
    var l :| 0 <= l < |a| && a[l] == b[n];
    if k < n && l < m {
      assert Before(ps, a[l], a[m]) && Before(ps, b[k], b[n]);
      BeforeTransitive(ps, a[l], a[m], b[n]);
    }
  }

  lemma ButLast(ps: seq<Policy>, a: seq<nat>, i: nat)
    requires Increasing(ps, a) && a != []
    ensures i in a[..|a| - 1] <==> i in a && i != a[|a| - 1]
  {
    hide Before;
    if i in a[..|a| - 1] {
      var j :| 0 <= j < |a| - 1 && a[j] == i;
      if i == a[|a| - 1] { IncreasingDistinct(ps, a, j, |a| - 1); }
    }
  }

  lemma EmptyTogether(a: seq<nat>, b: seq<nat>)
    requires forall i :: i in a <==> i in b
    ensures a == [] <==> b == []
  {
    if a != [] { assert a[0] in a; }
    if b != [] { assert b[0] in b; }
  }

  /** Any stable order of the same positions is this one, whatever algorithm found it. */
  lemma {:induction false} IncreasingUnique(ps: seq<Policy>, a: seq<nat>, b: seq<nat>)
    requires Increasing(ps, a) && Increasing(ps, b)
    requires forall i :: i in a <==> i in b
    ensures a == b
  {
    hide Before;
    EmptyTogether(a, b);
    if a != [] {
      assert a[|a| - 1] in b && b[|b| - 1] in a;
      LastIsLast(ps, a, b);
      var p, q := a[..|a| - 1], b[..|b| - 1];
      forall i ensures i in p <==> i in q {
        ButLast(ps, a, i);
        ButLast(ps, b, i);
      }
      assert Increasing(ps, p) && Increasing(ps, q);
      IncreasingUnique(ps, p, q);
    }
  }

  // ----- deciding ------------------------------------------------------------------------

  datatype Message = Silent | EvaluationFailed(rule: string) | DeniedByPolicy(rule: string)
                   | DeniedByUser(tool: string, rule: string)

  datatype PolicyResult = PolicyResult(allow: bool, message: Message, policy: string)

  const UNMATCHED := PolicyResult(true, Silent, "")

  predicate HasHandler(p: Policy) { p.decision == ASK_USER ==> p.ask.Some? }

  ghost predicate HaveHandlers(ps: seq<Policy>) { forall p :: p in ps ==> HasHandler(p) }

  /** The verdict one policy gives on a call, or None when it leaves the call to the next. */
  function Decide(p: Policy, call: ToolCall): Option<PolicyResult>
    requires HasHandler(p)
  {
    if p.name == WORKSPACE_ONLY || !MatchesTarget(p.tool, call) then None
    else if p.when.Some? && p.when.value(call).Broken? then
      Some(PolicyResult(false, EvaluationFailed(Label(p)), Label(p)))
    else if p.when.Some? && !p.when.value(call).yes then None
    else if p.decision == DENY then Some(PolicyResult(false, DeniedByPolicy(Label(p)), Label(p)))
    else if p.decision == APPROVE then Some(PolicyResult(true, Silent, Label(p)))
    else if p.decision == ASK_USER then
      match p.ask.value(call)
      case Broken => Some(PolicyResult(false, EvaluationFailed(Label(p)), Label(p)))
      case Answer(yes) =>
        Some(if yes then PolicyResult(true, Silent, Label(p))
             else PolicyResult(false, DeniedByUser(call.name, Label(p)), Label(p)))
    else None
  }

  /** The verdict of the first policy of a list that gives one. */
  function Walk(ps: seq<Policy>, call: ToolCall): PolicyResult
    requires HaveHandlers(ps)
  {
    if ps == [] then UNMATCHED
    else
      match Decide(ps[0], call)
      case Some(r) => r
      case None => Walk(ps[1..], call)
  }

  ghost predicate Decides(ps: seq<Policy>, call: ToolCall, i: int)
    requires HaveHandlers(ps) && 0 <= i < |ps|
  {
    Decide(ps[i], call).Some?
  }

  /** Declared position i decides the call and is evaluated before all others that would. */
  ghost predicate First(ps: seq<Policy>, call: ToolCall, i: int)
    requires HaveHandlers(ps)
  {
    0 <= i < |ps| && Decides(ps, call, i) &&
    forall j :: 0 <= j < |ps| && j != i && Decides(ps, call, j) ==> Before(ps, i, j)
  }

  /** What a declared list means for a call: the verdict of the policy that comes first in
    * (scope, decision, declared position) among those that decide, and approval if none does. */
  ghost predicate Means(ps: seq<Policy>, call: ToolCall, r: PolicyResult)
    requires HaveHandlers(ps)
  {
    || (exists i :: First(ps, call, i) && Decide(ps[i], call) == Some(r))
    || (r == UNMATCHED && forall i :: 0 <= i < |ps| ==> !Decides(ps, call, i))
  }

  /** A list means at most one verdict. */
  lemma MeansUnique(ps: seq<Policy>, call: ToolCall, r: PolicyResult, q: PolicyResult)
    requires HaveHandlers(ps) && Means(ps, call, r) && Means(ps, call, q)
    ensures r == q
  {
    if i :| First(ps, call, i) && Decide(ps[i], call) == Some(r) {
      if j :| First(ps, call, j) && Decide(ps[j], call) == Some(q) {
        if i != j { assert Before(ps, i, j) && Before(ps, j, i); }
      }
    }
  }

  /** The calls a target is for: all, those of one server, one tool of a server, or one builtin tool. */
  lemma MatchesExact(target: string, call: ToolCall)
    ensures MatchesTarget(target, call) <==>
      || target == "*"
      || (call.server == "" && target == call.name)
      || (call.server != "" && target == call.server + "/*")
      || (call.server != "" && target == call.server + "/" + call.name && !HasSuffix(target, "/*"))
  {
    if HasSuffix(target, "/*") {
      assert target == target[..|target| - 2] + "/*";
      assert (call.server + "/*")[..|call.server|] == call.server;
    }
  }

  /** The rule that a policy is reported as, and its verdict: fails closed when its predicate or its handler
    * does, and otherwise as its decision says; an unknown decision gives none. */
  ghost predicate Reports(p: Policy, call: ToolCall, r: PolicyResult)
    requires HasHandler(p)
  {
    var rule := if p.name == "" then p.tool else p.name;
    && p.name != "workspace_only" && MatchesTarget(p.tool, call) && r.policy == rule
    && if p.when.Some? && p.when.value(call) == Broken then !r.allow && r.message == EvaluationFailed(rule)
       else
         && (p.when.Some? ==> p.when.value(call) == Answer(true))
         && (p.decision == "DENY" || p.decision == "APPROVE" || p.decision == "ASK_USER")
         && (p.decision == "DENY" ==> !r.allow && r.message == DeniedByPolicy(rule))
         && (p.decision == "APPROVE" ==> r.allow && r.message == Silent)
         && (p.decision == "ASK_USER" ==>
               match p.ask.value(call)
               case Broken => !r.allow && r.message == EvaluationFailed(rule)
               case Answer(true) => r.allow && r.message == Silent
               case Answer(false) => !r.allow && r.message == DeniedByUser(call.name, rule))
  }

  /** A policy decides a call with exactly one report, or leaves it to the next. */
  lemma DecideReports(p: Policy, call: ToolCall, r: PolicyResult)
    requires HasHandler(p)
    ensures Decide(p, call) == Some(r) <==> Reports(p, call, r)
  {
  }

  /** What a list means is what its first policy to report reports, in order of how specific its target is,
    * how restrictive its decision, and where it is declared; and approval, by no rule, if none does. */
  lemma MeansReports(ps: seq<Policy>, call: ToolCall, r: PolicyResult)
    requires HaveHandlers(ps)
    ensures Means(ps, call, r) <==>
      || (exists i :: First(ps, call, i) && Reports(ps[i], call, r))
      || (r == PolicyResult(true, Silent, "") && forall i, q | 0 <= i < |ps| :: !Reports(ps[i], call, q))
  {
    forall i, q | 0 <= i < |ps| ensures Decide(ps[i], call) == Some(q) <==> Reports(ps[i], call, q) {
      DecideReports(ps[i], call, q);
    }
    hide Decide, Reports, First;
    if Means(ps, call, r) && !(exists i :: First(ps, call, i) && Decide(ps[i], call) == Some(r)) {
      forall i, q | 0 <= i < |ps| ensures !Reports(ps[i], call, q) { assert !Decides(ps, call, i); }
    }
    if forall i, q | 0 <= i < |ps| :: !Reports(ps[i], call, q) {
      forall i | 0 <= i < |ps| ensures !Decides(ps, call, i) {
        var verdict := Decide(ps[i], call);
        assert verdict.None? || exists q :: verdict == Some(q);
      }
    }
  }

  predicate Exact(target: string) { target != WILDCARD && !HasSuffix(target, "/*") }

  /** The priority rule: of the policies that decide a call, exact targets beat server-wide ones and
    * those the wildcard; between equally specific ones a denial beats asking, which beats approval;
    * and declaration order breaks what ties remain. */
  lemma PriorityRule(ps: seq<Policy>, call: ToolCall, i: int, j: int)
    requires HaveHandlers(ps) && First(ps, call, i) && 0 <= j < |ps| && Decides(ps, call, j)
    ensures Exact(ps[j].tool) ==> Exact(ps[i].tool)
    ensures ps[j].tool != WILDCARD ==> ps[i].tool != WILDCARD
    ensures Exact(ps[i].tool) == Exact(ps[j].tool) && (ps[i].tool == WILDCARD <==> ps[j].tool == WILDCARD) ==>
      && (ps[j].decision == DENY ==> ps[i].decision == DENY)
      && (ps[j].decision == ASK_USER ==> ps[i].decision != APPROVE)
      && (ps[i].decision == ps[j].decision ==> i <= j)
  {
    if i != j { assert Before(ps, i, j); }
  }

  // Walking the list in an order gives the verdict of the first position there that decides.
  lemma {:induction false} WalkStops(ps: seq<Policy>, call: ToolCall)
    requires HaveHandlers(ps)
    ensures || (exists k :: 0 <= k < |ps| && Decide(ps[k], call) == Some(Walk(ps, call)) &&
                            forall l :: 0 <= l < k ==> !Decides(ps, call, l))
            || (Walk(ps, call) == UNMATCHED && forall l :: 0 <= l < |ps| ==> !Decides(ps, call, l))
  {
    if ps != [] && Decide(ps[0], call).None? {
      var rest := ps[1..];
      WalkStops(rest, call);
      assert forall l :: 0 < l < |ps| ==> Decides(ps, call, l) == Decides(rest, call, l - 1);
      if k :| 0 <= k < |rest| && Decide(rest[k], call) == Some(Walk(rest, call)) &&
              forall l :: 0 <= l < k ==> !Decides(rest, call, l) {
        assert ps[k + 1] == rest[k];
      }
    } else if ps != [] {
      assert Decide(ps[0], call) == Some(Walk(ps, call));
    }
  }

  // Where a declared position went.
  lemma SortedHas(ps: seq<Policy>, i: nat) returns (l: nat)
    requires i < |ps|
    ensures l < |ps| && Order(ps, |ps|)[l] == i && Sorted(ps)[l] == ps[i]
  {
    assert i in Order(ps, |ps|);
    l :| 0 <= l < |ps| && Order(ps, |ps|)[l] == i;
  }

  lemma SortedHandlers(ps: seq<Policy>)
    requires HaveHandlers(ps)
    ensures HaveHandlers(Sorted(ps))
  {
    hide HasHandler;
    var sorted := Sorted(ps);
    forall p | p in sorted ensures HasHandler(p) {
      var k :| 0 <= k < |sorted| && sorted[k] == p;
      assert ps[Order(ps, |ps|)[k]] in ps;
    }
  }

  lemma EarliestIsFirst(ps: seq<Policy>, call: ToolCall, k: nat)
    requires HaveHandlers(ps) && HaveHandlers(Sorted(ps)) && k < |ps|
    requires Decides(Sorted(ps), call, k) && forall l :: 0 <= l < k ==> !Decides(Sorted(ps), call, l)
    ensures First(ps, call, Order(ps, |ps|)[k])
  {
    hide *;
    var order, sorted := Order(ps, |ps|), Sorted(ps);
    OrderIncreasing(ps, |ps|);
    var i := order[k];
    WithinAt(order, |ps|, k);
    assert sorted[k] == ps[i];
    assert Decides(ps, call, i) by { SameDecides(sorted, k, ps, i, call); }
    forall j | 0 <= j < |ps| && j != i && Decides(ps, call, j) ensures Before(ps, i, j) {
      var l := SortedHas(ps, j);
      SameDecides(sorted, l, ps, j, call);
      IncreasingAt(ps, order, k, l);
    }
    FirstIf(ps, call, i);
  }

  lemma WithinAt(order: seq<nat>, n: int, k: int)
    requires Within(order, n) && 0 <= k < |order|
    ensures order[k] < n
  {
  }

  lemma SameDecides(ps: seq<Policy>, i: int, qs: seq<Policy>, j: int, call: ToolCall)
    requires HaveHandlers(ps) && HaveHandlers(qs) && 0 <= i < |ps| && 0 <= j < |qs| && ps[i] == qs[j]
    ensures Decides(ps, call, i) == Decides(qs, call, j)
  {
  }

  lemma IncreasingAt(ps: seq<Policy>, order: seq<nat>, k: int, l: int)
    requires Increasing(ps, order) && 0 <= k < l < |order|
    ensures order[k] < |ps| && order[l] < |ps| && Before(ps, order[k], order[l])
  {
  }

  lemma FirstIf(ps: seq<Policy>, call: ToolCall, i: int)
    requires HaveHandlers(ps) && 0 <= i < |ps| && Decides(ps, call, i)
    requires forall j :: 0 <= j < |ps| && j != i && Decides(ps, call, j) ==> Before(ps, i, j)
    ensures First(ps, call, i)
  {
  }

  /** Sorting once and taking the first match meets the declarative meaning. */
  lemma WalkMeans(ps: seq<Policy>, call: ToolCall)
    requires HaveHandlers(ps)
    ensures HaveHandlers(Sorted(ps)) && Means(ps, call, Walk(Sorted(ps), call))
  {
    hide Decide, HasHandler, Before, Order, Sorted, Walk, First;
    SortedHandlers(ps);
    var sorted := Sorted(ps);
    WalkStops(sorted, call);
    if k :| 0 <= k < |sorted| && Decide(sorted[k], call) == Some(Walk(sorted, call)) &&
            forall l :: 0 <= l < k ==> !Decides(sorted, call, l) {
      EarliestIsFirst(ps, call, k);
    } else {
      forall i | 0 <= i < |ps| ensures !Decides(ps, call, i) {
        var l := SortedHas(ps, i);
        assert !Decides(sorted, call, l);
        SameDecides(sorted, l, ps, i, call);
      }
    }
  }

  // ----- independence of the declared order ----------------------------------------------

  ghost predicate SamePolicies(ps: seq<Policy>, qs: seq<Policy>) { forall p :: p in ps <==> p in qs }

  /** Declared position i decides, and no other that decides ranks before it. */
  ghost predicate Top(ps: seq<Policy>, call: ToolCall, i: int)
    requires HaveHandlers(ps)
  {
    0 <= i < |ps| && Decides(ps, call, i) &&
    forall j :: 0 <= j < |ps| && Decides(ps, call, j) ==> Compare(ps[i], ps[j]) <= 0
  }

  /** Policies that tie for first place give the same permission. */
  ghost predicate TiesAgree(ps: seq<Policy>, call: ToolCall)
    requires HaveHandlers(ps)
  {
    forall i, j :: Top(ps, call, i) && Top(ps, call, j) ==>
      Decide(ps[i], call).value.allow == Decide(ps[j], call).value.allow
  }

  lemma TopOfBoth(ps: seq<Policy>, qs: seq<Policy>, call: ToolCall, i: int, j: int)
    requires HaveHandlers(ps) && HaveHandlers(qs) && SamePolicies(ps, qs)
    requires First(ps, call, i) && First(qs, call, j)
    ensures exists k :: 0 <= k < |ps| && ps[k] == qs[j] && Top(ps, call, i) && Top(ps, call, k)
  {
    assert qs[j] in qs && ps[i] in ps;
    var k :| 0 <= k < |ps| && ps[k] == qs[j];
    var l :| 0 <= l < |qs| && qs[l] == ps[i];
    assert Decides(ps, call, k) && Decides(qs, call, l);
    forall m | 0 <= m < |ps| && Decides(ps, call, m) ensures Compare(ps[k], ps[m]) <= 0 {
      assert ps[m] in ps;
      var n :| 0 <= n < |qs| && qs[n] == ps[m];
      assert Decides(qs, call, n);
    }
    assert Top(ps, call, k);
  }

  /** Reordering, or repeating, the declared policies does not change a permission on whose
    * ties the policies agree. */
  lemma ReorderingKeeps(ps: seq<Policy>, qs: seq<Policy>, call: ToolCall, r: PolicyResult, q: PolicyResult)
    requires HaveHandlers(ps) && HaveHandlers(qs) && SamePolicies(ps, qs) && TiesAgree(ps, call)
    requires Means(ps, call, r) && Means(qs, call, q)
    ensures r.allow == q.allow
  {
    if i :| First(ps, call, i) && Decide(ps[i], call) == Some(r) {
      if j :| First(qs, call, j) && Decide(qs[j], call) == Some(q) {
        TopOfBoth(ps, qs, call, i, j);
      } else {
        assert ps[i] in qs;
        var l :| 0 <= l < |qs| && qs[l] == ps[i];
        assert Decides(qs, call, l);
      }
    } else if j :| First(qs, call, j) && Decide(qs[j], call) == Some(q) {
      assert qs[j] in ps;
      var l :| 0 <= l < |ps| && ps[l] == qs[j];
      assert Decides(ps, call, l);
    }
  }

  function Front(ps: seq<Policy>, i: int): seq<Policy>
    requires 0 <= i < |ps|
  {
    [ps[i]] + ps[..i] + ps[i + 1..]
  }

  lemma FrontPermutes(ps: seq<Policy>, i: int)
    requires 0 <= i < |ps|
    ensures multiset(Front(ps, i)) == multiset(ps) && SamePolicies(Front(ps, i), ps)
  {
    assert ps == ps[..i] + [ps[i]] + ps[i + 1..];
    forall p ensures p in ps <==> p in Front(ps, i) {
      assert p in multiset(ps) <==> p in multiset(Front(ps, i));
    }
  }

  lemma FrontDecides(ps: seq<Policy>, call: ToolCall, i: int)
    requires HaveHandlers(ps) && Top(ps, call, i)
    ensures HaveHandlers(Front(ps, i)) && First(Front(ps, i), call, 0)
  {
    FrontPermutes(ps, i);
    var qs := Front(ps, i);
    forall j | 0 < j < |qs| && Decides(qs, call, j) ensures Before(qs, 0, j) {
      assert qs[j] in ps;
      var k :| 0 <= k < |ps| && ps[k] == qs[j];
      assert Decides(ps, call, k);
    }
  }

  ghost predicate OrderIrrelevant(ps: seq<Policy>, call: ToolCall)
    requires HaveHandlers(ps)
  {
    forall qs, r, q | multiset(ps) == multiset(qs) && HaveHandlers(qs) ::
      (Means(ps, call, r) && Means(qs, call, q) ==> r.allow == q.allow)
  }

  /** The permission is the same for every permutation of the declared list exactly when the
    * policies tied for first place agree. */
  lemma OrderIrrelevantIffTiesAgree(ps: seq<Policy>, call: ToolCall)
    requires HaveHandlers(ps)
    ensures OrderIrrelevant(ps, call) <==> TiesAgree(ps, call)
  {
    if TiesAgree(ps, call) {
      forall qs, r, q | multiset(ps) == multiset(qs) && HaveHandlers(qs) &&
                        Means(ps, call, r) && Means(qs, call, q)
        ensures r.allow == q.allow
      {
        forall p ensures p in ps <==> p in qs { assert p in multiset(ps) <==> p in multiset(qs); }
        ReorderingKeeps(ps, qs, call, r, q);
      }
    }
    if OrderIrrelevant(ps, call) {
      SortedHandlers(ps);
      WalkMeans(ps, call);
      var r := Walk(Sorted(ps), call);
      forall i | Top(ps, call, i) ensures Decide(ps[i], call).value.allow == r.allow {
        FrontPermutes(ps, i);
        FrontDecides(ps, call, i);
        var qs := Front(ps, i);
        assert Decide(qs[0], call) == Some(Decide(ps[i], call).value);
        assert Means(qs, call, Decide(ps[i], call).value);
      }
    }
  }

  ghost predicate NothingBroken(ps: seq<Policy>, call: ToolCall) {
    forall p :: p in ps && p.when.Some? ==> p.when.value(call).Answer?
  }

  ghost predicate HandlersAgree(ps: seq<Policy>, call: ToolCall) {
    forall p, q :: p in ps && q in ps && p.ask.Some? && q.ask.Some? ==> p.ask.value(call) == q.ask.value(call)
  }

  lemma SameRankAgrees(p: Policy, q: Policy, call: ToolCall)
    requires HasHandler(p) && HasHandler(q) && Decide(p, call).Some? && Decide(q, call).Some?
    requires Compare(p, q) == 0
    requires p.when.Some? ==> p.when.value(call).Answer?
    requires q.when.Some? ==> q.when.value(call).Answer?
    requires p.ask.Some? && q.ask.Some? ==> p.ask.value(call) == q.ask.value(call)
    ensures Decide(p, call).value.allow == Decide(q, call).value.allow
  {
  }

  lemma SoundTiesAgree(ps: seq<Policy>, call: ToolCall)
    requires HaveHandlers(ps) && NothingBroken(ps, call) && HandlersAgree(ps, call)
    ensures TiesAgree(ps, call)
  {
    hide Decide;
    forall i, j | Top(ps, call, i) && Top(ps, call, j)
      ensures Decide(ps[i], call).value.allow == Decide(ps[j], call).value.allow
    {
      assert ps[i] in ps && ps[j] in ps;
      assert Compare(ps[i], ps[j]) <= 0 && Compare(ps[j], ps[i]) <= 0;
      SameRankAgrees(ps[i], ps[j], call);
    }
  }

  /** Without failing predicates and with ask-user handlers that agree, the declared order of
    * the policies does not matter. */
  lemma PermutationKeeps(ps: seq<Policy>, qs: seq<Policy>, call: ToolCall)
    requires HaveHandlers(ps) && multiset(ps) == multiset(qs)
    requires NothingBroken(ps, call) && HandlersAgree(ps, call)
    ensures HaveHandlers(Sorted(ps)) && HaveHandlers(Sorted(qs))
    ensures Walk(Sorted(ps), call).allow == Walk(Sorted(qs), call).allow
  {
    forall p ensures p in ps <==> p in qs { assert p in multiset(ps) <==> p in multiset(qs); }
    WalkMeans(ps, call);
    WalkMeans(qs, call);
    SoundTiesAgree(ps, call);
    hide *;
    ReorderingKeeps(ps, qs, call, Walk(Sorted(ps), call), Walk(Sorted(qs), call));
  }

  // ----- denying by default --------------------------------------------------------------

  const DENY_ALL := Policy(WILDCARD, DENY, None, None, "deny_all")

  function AllowTool(target: string): Policy { Policy(target, APPROVE, None, None, "") }

  /** A deny-all beside one allowed tool, in either order, permits exactly the calls that tool's
    * target selects. */
  lemma OnlyAllowedTool(target: string, call: ToolCall, r: PolicyResult, ps: seq<Policy>)
    requires target != WILDCARD && (ps == [DENY_ALL, AllowTool(target)] || ps == [AllowTool(target), DENY_ALL])
    requires HaveHandlers(ps) && Means(ps, call, r)
    ensures r.allow <==> MatchesTarget(target, call)
    ensures r.policy == if r.allow then target else "deny_all"
  {
    hide MatchesTarget, HasHandler;
    var d, a := if ps[0] == DENY_ALL then 0 else 1, if ps[0] == DENY_ALL then 1 else 0;
    assert ps[d] == DENY_ALL && ps[a] == AllowTool(target) by { assert DENY_ALL != AllowTool(target); }
    assert Decides(ps, call, d) by { DenyAllDecides(call); }
    var i :| First(ps, call, i) && Decide(ps[i], call) == Some(r);
    if i != d && Decides(ps, call, d) { assert i == a; }
    if Decides(ps, call, a) { PriorityRule(ps, call, i, a); }
  }

  lemma DenyAllDecides(call: ToolCall)
    ensures Decide(DENY_ALL, call).Some? && !Decide(DENY_ALL, call).value.allow
  {
  }

  // ----- adding a denial -----------------------------------------------------------------

  lemma DenyNeverAllows(p: Policy, call: ToolCall)
    requires p.decision == DENY && Decide(p, call).Some?
    ensures !Decide(p, call).value.allow
  {
  }

  function With(ps: seq<Policy>, at: nat, d: Policy): seq<Policy>
    requires at <= |ps|
  {
    ps[..at] + [d] + ps[at..]
  }

  function Shifted(k: int, at: nat): int { if k < at then k else k + 1 }

  lemma WithAt(ps: seq<Policy>, at: nat, d: Policy, k: int)
    requires at <= |ps| && 0 <= k <= |ps|
    ensures k < |ps| ==> With(ps, at, d)[Shifted(k, at)] == ps[k]
    ensures k != at ==> Shifted(if k < at then k else k - 1, at) == k
    ensures |With(ps, at, d)| == |ps| + 1 && With(ps, at, d)[at] == d
  {
  }

  /** Declaring one more Deny, anywhere in the list, never turns a denied call into an allowed
    * one. */
  lemma DenyMonotone(ps: seq<Policy>, at: nat, d: Policy, call: ToolCall, r: PolicyResult, q: PolicyResult)
    requires at <= |ps| && d.decision == DENY && HaveHandlers(ps) && HaveHandlers(With(ps, at, d))
    requires Means(ps, call, r) && Means(With(ps, at, d), call, q)
    ensures q.allow ==> r.allow
  {
    hide Decide, Compare, With;
    var qs := With(ps, at, d);
    WithAt(ps, at, d, at);
    if !r.allow && q.allow {
      var i :| First(ps, call, i) && Decide(ps[i], call) == Some(r);
      WithAt(ps, at, d, i);
      assert Decides(qs, call, Shifted(i, at));
      var j :| First(qs, call, j) && Decide(qs[j], call) == Some(q);
      WithAt(ps, at, d, j);
      if j == at {
        DenyNeverAllows(d, call);
      } else {
        var k := if j < at then j else j - 1;
        WithAt(ps, at, d, k);
        assert Decides(ps, call, k);
        Opposed(ps, qs, i, k, Shifted(i, at), j);
      }
    }
  }

  lemma Opposed(ps: seq<Policy>, qs: seq<Policy>, i: int, k: int, i': int, k': int)
    requires 0 <= i < |ps| && 0 <= k < |ps| && 0 <= i' < |qs| && 0 <= k' < |qs|
    requires ps[i] == qs[i'] && ps[k] == qs[k'] && (i < k <==> i' < k')
    requires i != k ==> Before(ps, i, k)
    requires i' != k' ==> Before(qs, k', i')
    ensures i == k
  {
  }

  // ----- the enforcer --------------------------------------------------------------------

  datatype Fault = NoHandler(rule: string) | UnknownServer(rule: string, server: string)

  function FaultOf(p: Policy, servers: seq<string>): Option<Fault> {
    if p.decision == ASK_USER && p.ask.None? then Some(NoHandler(Label(p)))
    else
      match Find(p.tool, '/')
      case None => None
      case Some(i) =>
        if p.tool[..i] in servers then None else Some(UnknownServer(Label(p), p.tool[..i]))
  }

  /** What is wrong with a policy: it asks the user and has no handler, or its target names a server, by what
    * stands before its first slash, that is not there. */
  lemma FaultExact(p: Policy, servers: seq<string>)
    ensures FaultOf(p, servers).None? <==>
      && !(p.decision == "ASK_USER" && p.ask.None?)
      && forall server, rest :: p.tool == server + "/" + rest && '/' !in server ==> server in servers
    ensures FaultOf(p, servers).Some? ==>
      var rule, fault := if p.name == "" then p.tool else p.name, FaultOf(p, servers).value;
      if p.decision == "ASK_USER" && p.ask.None? then fault == NoHandler(rule)
      else exists server, rest :: p.tool == server + "/" + rest && '/' !in server && server !in servers &&
                                  fault == UnknownServer(rule, server)
  {
    forall server, rest | p.tool == server + "/" + rest && '/' !in server
      ensures Find(p.tool, '/') == Some(|server|) && p.tool[..|server|] == server
    {
      assert p.tool == server + ("/" + rest);
      FindIs(p.tool, '/', |server|);
    }
    match Find(p.tool, '/')
    case None =>
    case Some(i) => assert p.tool == p.tool[..i] + "/" + p.tool[i + 1..];
  }

  ghost predicate Accepted(ps: seq<Policy>, servers: seq<string>) {
    forall p :: p in ps ==> FaultOf(p, servers).None?
  }

  ghost predicate FirstFault(ps: seq<Policy>, servers: seq<string>, fault: Fault) {
    exists k :: 0 <= k < |ps| && FaultOf(ps[k], servers) == Some(fault) &&
      forall l :: 0 <= l < k ==> FaultOf(ps[l], servers).None?
  }

  datatype Built = Built(enforcer: Enforcer) | Rejected(fault: Fault)

  /** Builds an enforcer, or reports the fault met first in evaluation order. */
  method NewEnforcer(policies: seq<Policy>, servers: seq<string>) returns (r: Built)
    ensures r.Built? <==> Accepted(policies, servers)
    ensures r.Built? ==> fresh(r.enforcer) && r.enforcer.Valid() &&
                         r.enforcer.declared == policies && r.enforcer.dynamic == map[]
    ensures r.Rejected? ==> FirstFault(Sorted(policies), servers, r.fault)
  {
    var sorted := Sorted(policies);
    ghost var order := Order(policies, |policies|);
    var k := 0;
    while k < |sorted|
      invariant 0 <= k <= |sorted|
      invariant forall l :: 0 <= l < k ==> FaultOf(sorted[l], servers).None?
    {
      match FaultOf(sorted[k], servers) {
        case Some(fault) =>
          assert order[k] in order && sorted[k] in policies;
          return Rejected(fault);
        case None =>
      }
      k := k + 1;
    }
    forall p | p in policies ensures FaultOf(p, servers).None? {
      var i :| 0 <= i < |policies| && policies[i] == p;
      assert i in order;
      var l :| 0 <= l < |order| && order[l] == i;
      assert FaultOf(sorted[l], servers).None?;
    }
    var enforcer := new Enforcer(policies);
    r := Built(enforcer);
  }

  class Enforcer {
    const policies: seq<Policy>
    const declared: seq<Policy>
    var dynamic: map<string, Policy>

    ghost predicate Valid() {
      policies == Sorted(declared) && HaveHandlers(declared) && HaveHandlers(policies)
    }

    constructor (declared: seq<Policy>)
      requires HaveHandlers(declared)
      ensures Valid() && this.declared == declared && dynamic == map[]
    {
      this.declared, policies, dynamic := declared, Sorted(declared), map[];
      new;
      SortedHandlers(declared);
    }

    /** The verdict is the declarative meaning of the declared list. */
    method Evaluate(call: ToolCall) returns (r: PolicyResult)
      requires Valid()
      ensures r == Walk(policies, call) && Means(declared, call, r)
    {
      WalkMeans(declared, call);
      var k := 0;
      while k < |policies|
        invariant 0 <= k <= |policies|
        invariant Walk(policies, call) == Walk(policies[k..], call)
      {
        var p := policies[k];
        assert p in policies;
        k := k + 1;
        if p.name == WORKSPACE_ONLY || !MatchesTarget(p.tool, call) { continue; }
        if p.when.Some? {
          match p.when.value(call) {
            case Broken => return PolicyResult(false, EvaluationFailed(Label(p)), Label(p));
            case Answer(matched) => if !matched { continue; }
          }
        }
        if p.decision == DENY {
          return PolicyResult(false, DeniedByPolicy(Label(p)), Label(p));
        } else if p.decision == APPROVE {
          return PolicyResult(true, Silent, Label(p));
        } else if p.decision == ASK_USER {
          match p.ask.value(call) {
            case Broken => return PolicyResult(false, EvaluationFailed(Label(p)), Label(p));
            case Answer(approved) =>
              if approved { return PolicyResult(true, Silent, Label(p)); }
              return PolicyResult(false, DeniedByUser(call.name, Label(p)), Label(p));
          }
        }
      }
      r := UNMATCHED;
    }
  }
}
