/** The split of a policy set between the harness and the client: static rules are sent as a
  * target and a verdict, dynamic ones as an id the client is asked about. Whoever walks the
  * rules reaches the verdict the in-process evaluator would. */
module PolicySplit {
  import opened Options
  import opened Policies
  import opened Text

  datatype WireDecision = Unspecified | Allowing | Denying | Asking

  datatype Target = Target(tool: string, server: string)

  datatype Rule = Rule(target: Target, name: string, decision: WireDecision, dynamic: bool, id: string)

  function ParseTarget(target: string): Target {
    if target == WILDCARD then Target(WILDCARD, "")
    else
      match Find(target, '/')
      case None => Target(target, "")
      case Some(i) => Target(target[i + 1..], target[..i])
  }

  predicate IsDynamic(p: Policy) {
    p.name != WORKSPACE_ONLY && (p.when.Some? || p.decision == ASK_USER)
  }

  function ToWire(decision: string): WireDecision {
    if decision == APPROVE then Allowing
    else if decision == DENY then Denying
    else if decision == ASK_USER then Asking
    else Unspecified
  }

  function RuleId(i: nat): string { "rule_" + Decimal(i) }

  lemma RuleIdInjective(i: nat, j: nat)
    requires RuleId(i) == RuleId(j)
    ensures i == j
  {
    assert RuleId(i)[5..] == Decimal(i) && RuleId(j)[5..] == Decimal(j);
    DecimalInjective(i, j);
  }

  function RuleOf(p: Policy, i: nat): Rule {
    Rule(ParseTarget(p.tool), Label(p), ToWire(p.decision), IsDynamic(p), if IsDynamic(p) then RuleId(i) else "")
  }

  function RulesOf(ps: seq<Policy>): (r: seq<Rule>)
    ensures |r| == |ps|
  {
    seq(|ps|, i requires 0 <= i < |ps| => RuleOf(ps[i], i))
  }

  /** What the harness is told of each declared policy: its name, its decision, the tool and the server that
    * its target names on either side of the first slash, and an id by which to ask about it if it has a
    * predicate or asks the user, unless it is the workspace marker. */
  lemma RuleExact(ps: seq<Policy>, i: nat)
    requires i < |ps|
    ensures var p, r := ps[i], RulesOf(ps)[i];
      && r.name == (if p.name == "" then p.tool else p.name)
      && (p.decision == "APPROVE" ==> r.decision == Allowing)
      && (p.decision == "DENY" ==> r.decision == Denying)
      && (p.decision == "ASK_USER" ==> r.decision == Asking)
      && (p.decision != "APPROVE" && p.decision != "DENY" && p.decision != "ASK_USER" ==> r.decision == Unspecified)
      && (r.dynamic <==> p.name != "workspace_only" && (p.when.Some? || p.decision == "ASK_USER"))
      && r.id == (if r.dynamic then "rule_" + Decimal(i) else "")
      && ('/' !in p.tool ==> r.target == Target(p.tool, ""))
      && ('/' in p.tool ==> '/' !in r.target.server && p.tool == r.target.server + "/" + r.target.tool)
  {
    hide Decimal;
    var p := ps[i];
    assert "APPROVE" != "DENY" && "ASK_USER" != "DENY" && "APPROVE" != "ASK_USER";
    match Find(p.tool, '/')
    case None =>
    case Some(k) => assert p.tool == p.tool[..k] + "/" + p.tool[k + 1..];
  }

  // ----- the table of dynamic rules ------------------------------------------------------

  /** Every id in the table belongs to the declared dynamic policy it resolves to. */
  ghost predicate Sound(dynamic: map<string, Policy>, ps: seq<Policy>) {
    forall id :: id in dynamic ==> exists i :: 0 <= i < |ps| && Resolves(dynamic, ps, id, i)
  }

  ghost predicate Resolves(dynamic: map<string, Policy>, ps: seq<Policy>, id: string, i: int)
    requires id in dynamic && 0 <= i < |ps|
  {
    IsDynamic(ps[i]) && id == RuleId(i) && dynamic[id] == ps[i]
  }

  ghost predicate Complete(dynamic: map<string, Policy>, ps: seq<Policy>, n: int)
    requires n <= |ps|
  {
    forall i :: 0 <= i < n && IsDynamic(ps[i]) ==> RuleId(i) in dynamic
  }

  /** Renders the declared policies for the harness and records the dynamic ones. */
  method PolicyConfig(e: Enforcer) returns (rules: seq<Rule>)
    requires Sound(e.dynamic, e.declared)
    modifies e`dynamic
    ensures rules == RulesOf(e.declared)
    ensures Sound(e.dynamic, e.declared) && Complete(e.dynamic, e.declared, |e.declared|)
  {
    hide IsDynamic, RuleId, ParseTarget, ToWire;
    rules := [];
    for i := 0 to |e.declared|
      invariant |rules| == i && forall j :: 0 <= j < i ==> rules[j] == RuleOf(e.declared[j], j)
      invariant Sound(e.dynamic, e.declared) && Complete(e.dynamic, e.declared, i)
    {
      var p := e.declared[i];
      var id := "";
      if IsDynamic(p) {
        id := RuleId(i);
        Record(e.dynamic, e.declared, i);
        e.dynamic := e.dynamic[id := p];
      } else {
        assert Complete(e.dynamic, e.declared, i + 1);
      }
      rules := rules + [Rule(ParseTarget(p.tool), Label(p), ToWire(p.decision), IsDynamic(p), id)];
    }
  }

  lemma Record(dynamic: map<string, Policy>, ps: seq<Policy>, i: nat)
    requires i < |ps| && IsDynamic(ps[i]) && Sound(dynamic, ps) && Complete(dynamic, ps, i)
    ensures Sound(dynamic[RuleId(i) := ps[i]], ps) && Complete(dynamic[RuleId(i) := ps[i]], ps, i + 1)
  {
    hide IsDynamic, RuleId;
    var next := dynamic[RuleId(i) := ps[i]];
    forall id | id in next ensures exists j :: 0 <= j < |ps| && Resolves(next, ps, id, j) {
      if id == RuleId(i) {
        assert Resolves(next, ps, id, i);
      } else {
        var j :| 0 <= j < |ps| && Resolves(dynamic, ps, id, j);
        assert Resolves(next, ps, id, j);
      }
    }
  }

  /** Rule ids name declared policies one for one: an id resolves exactly when it is that of a
    * dynamic policy, and then to that policy. */
  lemma IdsResolve(dynamic: map<string, Policy>, ps: seq<Policy>, i: nat)
    requires Sound(dynamic, ps) && Complete(dynamic, ps, |ps|) && i < |ps|
    ensures IsDynamic(ps[i]) <==> RuleId(i) in dynamic
    ensures IsDynamic(ps[i]) ==> dynamic[RuleId(i)] == ps[i]
  {
    if RuleId(i) in dynamic {
      var j :| 0 <= j < |ps| && Resolves(dynamic, ps, RuleId(i), j);
      RuleIdInjective(i, j);
    }
  }

  // ----- the client's answers ------------------------------------------------------------

  datatype Outcome = Allow | Deny | NoMatch

  function ByRuleId(dynamic: map<string, Policy>, id: string): Option<Policy> {
    if id in dynamic then Some(dynamic[id]) else None
  }

  /** The answer to the harness about one rule. Every path answers. */
  function HandlePolicyDecision(dynamic: map<string, Policy>, id: string, call: ToolCall): Outcome
    requires forall i :: i in dynamic ==> HasHandler(dynamic[i])
  {
    match ByRuleId(dynamic, id)
    case None => Deny
    case Some(p) => OutcomeOf(p, call)
  }

  function OutcomeOf(p: Policy, call: ToolCall): Outcome
    requires HasHandler(p)
  {
    if p.when.Some? && p.when.value(call).Broken? then Deny
    else if p.when.Some? && !p.when.value(call).yes then NoMatch
    else if p.decision == ASK_USER then
      match p.ask.value(call)
      case Broken => Deny
      case Answer(yes) => if yes then Allow else Deny
    else if p.decision == DENY then Deny
    else if p.decision == APPROVE then Allow
    else Deny
  }

  function Permission(r: Option<PolicyResult>): Outcome {
    match r
    case None => NoMatch
    case Some(v) => if v.allow then Allow else Deny
  }

  /** The client's answer about a rule whose target matches is the evaluator's verdict, except
    * that a policy with an unrecognized decision is denied here and passed over there. */
  lemma AnswersAgreeIff(p: Policy, call: ToolCall)
    requires HasHandler(p) && p.name != WORKSPACE_ONLY && MatchesTarget(p.tool, call)
    ensures OutcomeOf(p, call) == Permission(Decide(p, call)) <==>
      Known(p.decision) || (p.when.Some? && p.when.value(call) != Answer(true))
  {
  }

  // ----- the harness ---------------------------------------------------------------------

  /** How the harness selects calls by a rule's parsed target. */
  predicate HarnessMatches(target: Target, call: ToolCall) {
    if target == Target(WILDCARD, "") then true
    else if target.server != "" then
      call.server == target.server && (target.tool == WILDCARD || target.tool == call.name)
    else call.server == "" && target.tool == call.name
  }

  function HarnessStep(rule: Rule, dynamic: map<string, Policy>, call: ToolCall): Outcome
    requires forall i :: i in dynamic ==> HasHandler(dynamic[i])
  {
    if !HarnessMatches(rule.target, call) then NoMatch
    else if rule.dynamic then HandlePolicyDecision(dynamic, rule.id, call)
    else
      match rule.decision
      case Allowing => Allow
      case Denying => Deny
      case _ => NoMatch
  }

  /** The harness walks rules in order and stops at the first that permits or denies. */
  function HarnessWalk(rules: seq<Rule>, dynamic: map<string, Policy>, call: ToolCall): bool
    requires forall i :: i in dynamic ==> HasHandler(dynamic[i])
  {
    if rules == [] then true
    else
      match HarnessStep(rules[0], dynamic, call)
      case Allow => true
      case Deny => false
      case NoMatch => HarnessWalk(rules[1..], dynamic, call)
  }

  /** The rules in evaluation order. */
  function InOrder(ps: seq<Policy>): (r: seq<Rule>)
    ensures |r| == |ps|
    ensures forall k :: 0 <= k < |ps| ==> r[k] == RuleOf(ps[Order(ps, |ps|)[k]], Order(ps, |ps|)[k])
  {
    var order := Order(ps, |ps|);
    assert Within(order, |ps|);
    seq(|ps|, k requires 0 <= k < |ps| => RuleOf(ps[order[k]], order[k]))
  }

  // ----- the split meets the evaluator ---------------------------------------------------

  /** The part of a target before its slash is not empty. */
  predicate NamedServer(target: string) { Find(target, '/') != Some(0) }

  /** The calls for which every target with a named server says the same on both sides: builtin
    * tools without a slash, or with one in front; tools of a server without a slash, unless the
    * name ends like a server-wide target; and those of a server whose name has a slash in front. */
  predicate CallSplits(call: ToolCall) {
    if call.server == "" then '/' !in call.name || call.name[0] == '/'
    else if '/' in call.server then call.server[0] == '/'
    else !HasSuffix(call.name, "/*")
  }

  /** A target selects a call on both sides or on neither. */
  predicate Agree(target: string, call: ToolCall) {
    MatchesTarget(target, call) == HarnessMatches(ParseTarget(target), call)
  }

  lemma ParsesTo(server: string, tool: string)
    requires '/' !in server
    ensures Find(server + "/" + tool, '/') == Some(|server|)
    ensures ParseTarget(server + "/" + tool) == Target(tool, server)
  {
    var target := server + "/" + tool;
    assert target[..|server|] == server && target[|server| + 1..] == tool;
    FindIs(target, '/', |server|);
  }

  // A server-wide target names a server and nothing else.
  lemma SuffixMeans(target: string, server: string)
    ensures HasSuffix(target, "/*") && target[..|target| - 2] == server <==> target == server + "/*"
  {
    if target == server + "/*" { assert target[|target| - 2..] == "/*"; }
  }

  /** Of a server without a slash in its name, a target with that server part selects over the wire
    * what it selects in process, unless the call's own name ends like a server-wide target. */
  lemma SameServer(tool: string, call: ToolCall)
    requires call.server != "" && '/' !in call.server && !HasSuffix(call.name, "/*")
    ensures Agree(call.server + "/" + tool, call)
  {
    var server := call.server;
    var target := server + "/" + tool;
    ParsesTo(server, tool);
    hide Find, ParseTarget;
    SuffixMeans(target, server);
    assert target[|server|] == '/';
    assert target[|server| + 1..] == tool && (server + "/" + call.name)[|server| + 1..] == call.name;
    assert (server + "/*")[|server| + 1..] == "*";
    if HasSuffix(target, "/*") && tool != "*" { TailSuffix(server, tool); }
    assert tool == "*" ==> target == server + "/*";
  }

  // Only "*" itself, or a name that ends so too, makes the whole end like a server-wide target.
  lemma TailSuffix(server: string, tool: string)
    requires HasSuffix(server + "/" + tool, "/*") && tool != "*"
    ensures HasSuffix(tool, "/*")
  {
    var target := server + "/" + tool;
    assert target[|target| - 2] == "/*"[0] && target[|target| - 1] == "/*"[1];
    if |tool| >= 2 { assert tool[|tool| - 2..] == target[|target| - 2..]; }
  }

  // A target of another server, or of none, selects no call of a server on either side.
  lemma OtherServer(target: string, call: ToolCall)
    requires call.server != "" && target != WILDCARD && NamedServer(target)
    requires ParseTarget(target).server != call.server && ('/' in call.server ==> call.server[0] == '/')
    ensures !MatchesTarget(target, call)
  {
    var server := call.server;
    if MatchesTarget(target, call) {
      SuffixMeans(target, server);
      var tool := if HasSuffix(target, "/*") then "*" else call.name;
      assert target == server + "/" + tool;
      if '/' !in server { ParsesTo(server, tool); }
    }
  }

  lemma ParseMeans(target: string)
    requires NamedServer(target)
    ensures var t := ParseTarget(target);
      if '/' in target then t.server != "" && '/' !in t.server && target == t.server + "/" + t.tool
      else t == Target(target, "")
  {
  }

  /** The parsed target selects the calls the target itself does. */
  lemma TargetsAgree(target: string, call: ToolCall)
    requires CallSplits(call) && NamedServer(target)
    ensures Agree(target, call)
  {
    var t := ParseTarget(target);
    ParseMeans(target);
    if target != WILDCARD {
      if call.server == "" {
        BuiltinAgrees(target, call);
      } else if t.server == call.server {
        SameServer(t.tool, call);
      } else {
        OtherServer(target, call);
        hide MatchesTarget, ParseTarget, CallSplits;
      }
    }
  }

  lemma BuiltinAgrees(target: string, call: ToolCall)
    requires call.server == "" && CallSplits(call) && NamedServer(target) && target != WILDCARD
    ensures Agree(target, call)
  {
    ParseMeans(target);
    hide ParseTarget;
  }

  /** A builtin tool whose name has a slash is reached by its target in process but not over
    * the wire. */
  lemma SlashedNameDiffers(name: string)
    requires '/' in name && NamedServer(name)
    ensures var call := ToolCall(name, "", "");
      MatchesTarget(name, call) && !HarnessMatches(ParseTarget(name), call)
  {
    assert |ParseTarget(name).tool| < |name|;
  }

  /** A target with an empty server part means a builtin tool to the harness and nothing to the
    * evaluator. */
  lemma EmptyServerDiffers(name: string)
    requires '/' !in name
    ensures var call := ToolCall(name, "", "");
      !MatchesTarget("/" + name, call) && HarnessMatches(ParseTarget("/" + name), call)
  {
    var target := "/" + name;
    assert target[0] == '/' && target[1..] == name && Find(target, '/') == Some(0);
  }

  /** The exact condition on a call: every target with a named server agrees on it if and only if the
    * call splits. */
  lemma CallSplitsIff(call: ToolCall)
    ensures CallSplits(call) <==> forall target :: NamedServer(target) ==> Agree(target, call)
  {
    if CallSplits(call) {
      forall target | NamedServer(target) ensures Agree(target, call) { TargetsAgree(target, call); }
    } else {
      var target := CallDiffers(call);
    }
  }

  /** A target that tells the two sides apart on a call that does not split. */
  lemma CallDiffers(call: ToolCall) returns (target: string)
    requires !CallSplits(call)
    ensures NamedServer(target) && '/' in target && !Agree(target, call)
  {
    if call.server == "" {
      target := call.name;
      SlashedNameDiffers(call.name);
      assert NamedServer(target) by { NotInFront(target); }
    } else if '/' in call.server {
      target := call.server + "/*";
      ServerDiffers(call);
    } else {
      target := call.server + "/" + call.name;
      ParsesTo(call.server, call.name);
      SuffixMeans(target, call.server);
      assert target[|target| - 2..] == call.name[|call.name| - 2..];
      assert (call.server + "/*")[|call.server| + 1..] == "*" && target[|call.server| + 1..] == call.name;
    }
  }

  lemma NotInFront(s: string)
    requires s != "" && s[0] != '/'
    ensures NamedServer(s)
  {
  }

  lemma ServerDiffers(call: ToolCall)
    requires '/' in call.server && call.server[0] != '/'
    ensures NamedServer(call.server + "/*") && !Agree(call.server + "/*", call)
  {
    var target := call.server + "/*";
    SuffixMeans(target, call.server);
    NotInFront(target);
    assert target[|call.server|] == '/';
    ParseMeans(target);
    hide ParseTarget;
  }

  /** The exact condition on a target: every call that splits is told the same by it on both sides if
    * and only if its server part is named. */
  lemma NamedServerIff(target: string)
    ensures NamedServer(target) <==> forall call :: CallSplits(call) ==> Agree(target, call)
  {
    if NamedServer(target) {
      forall call | CallSplits(call) ensures Agree(target, call) { TargetsAgree(target, call); }
    } else {
      var call := UnnamedDiffers(target);
    }
  }

  lemma UnnamedDiffers(target: string) returns (call: ToolCall)
    requires !NamedServer(target)
    ensures CallSplits(call) && !Agree(target, call)
  {
    assert target[0] == '/' && target[..0] == "" && ParseTarget(target) == Target(target[1..], "");
    if target[1..] == WILDCARD {
      call := ToolCall("f", "", "");
    } else {
      call := ToolCall(target, "", "");
      assert |target[1..]| < |target|;
    }
  }

  predicate PlainCall(call: ToolCall) { '/' !in call.server && '/' !in call.name }

  lemma SuffixHasSlash(s: string)
    ensures HasSuffix(s, "/*") ==> '/' in s
  {
    if HasSuffix(s, "/*") { assert s[|s| - 2] == "/*"[0]; }
  }

  /** On calls without any slash a target agrees exactly when its server part is named, or when what
    * follows a slash in front has another. */
  lemma PlainCallsAgreeIff(target: string)
    ensures (forall call :: PlainCall(call) ==> Agree(target, call)) <==>
      NamedServer(target) || (target != "" && '/' in target[1..])
  {
    if NamedServer(target) {
      forall call | PlainCall(call) ensures Agree(target, call) {
        SuffixHasSlash(call.name);
        TargetsAgree(target, call);
      }
    } else {
      assert target[0] == '/' && target[..0] == "" && ParseTarget(target) == Target(target[1..], "");
      if '/' in target[1..] {
        forall call | PlainCall(call) ensures Agree(target, call) { TwiceSlashed(target, call); }
      } else {
        EmptyServerDiffers(target[1..]);
        assert target == "/" + target[1..];
        var call := ToolCall(target[1..], "", "");
        assert PlainCall(call) && !Agree(target, call);
      }
    }
  }

  lemma TwiceSlashed(target: string, call: ToolCall)
    requires target != "" && target[0] == '/' && '/' in target[1..] && PlainCall(call)
    ensures Agree(target, call)
  {
    FindIs(target, '/', 0);
    assert ParseTarget(target) == Target(target[1..], "");
    SuffixMeans(target, call.server);
    hide Find, ParseTarget;
    if call.server != "" {
      assert (call.server + "/*")[0] == call.server[0] && (call.server + "/" + call.name)[0] == call.server[0];
    }
  }

  /** The target of a server with no name covers every tool of the session over the wire, and in
    * process only a builtin tool of that very name. */
  lemma SlashStarIsWildcard(call: ToolCall)
    ensures HarnessMatches(ParseTarget("/*"), call)
    ensures MatchesTarget("/*", call) <==> call.server == "" && call.name == "/*"
  {
    var target := "/*";
    FindIs(target, '/', 0);
    assert target[1..] == "*" && target[..0] == "";
    assert target[..|target| - 2] == "";
  }

  /** A policy the split carries faithfully. */
  predicate Splits(p: Policy) {
    HasHandler(p) && Known(p.decision) && p.name != WORKSPACE_ONLY && NamedServer(p.tool)
  }

  lemma StepAgrees(p: Policy, i: nat, dynamic: map<string, Policy>, call: ToolCall)
    requires CallSplits(call) && Splits(p)
    requires forall id :: id in dynamic ==> HasHandler(dynamic[id])
    requires IsDynamic(p) ==> RuleId(i) in dynamic && dynamic[RuleId(i)] == p
    ensures HarnessStep(RuleOf(p, i), dynamic, call) == Permission(Decide(p, call))
  {
    hide MatchesTarget, HarnessMatches, ParseTarget, RuleId, NamedServer, CallSplits;
    TargetsAgree(p.tool, call);
  }

  lemma {:induction false} WalksAgree(rules: seq<Rule>, ps: seq<Policy>, dynamic: map<string, Policy>, call: ToolCall)
    requires |rules| == |ps| && HaveHandlers(ps)
    requires forall id :: id in dynamic ==> HasHandler(dynamic[id])
    requires forall k :: 0 <= k < |ps| ==> HarnessStep(rules[k], dynamic, call) == Permission(Decide(ps[k], call))
    ensures HarnessWalk(rules, dynamic, call) == Walk(ps, call).allow
  {
    hide HarnessStep, Decide;
    if ps != [] {
      assert HarnessStep(rules[0], dynamic, call) == Permission(Decide(ps[0], call));
      if Decide(ps[0], call).None? {
        WalksAgree(rules[1..], ps[1..], dynamic, call);
      }
    }
  }

  ghost predicate ValidServers(servers: seq<string>) { "" !in servers }

  /** Rules an enforcer accepts split: valid server names and known decisions are enough. */
  lemma AcceptedSplits(ps: seq<Policy>, servers: seq<string>, p: Policy)
    requires Accepted(ps, servers) && ValidServers(servers) && p in ps
    requires Known(p.decision) && p.name != WORKSPACE_ONLY
    ensures Splits(p)
  {
    assert FaultOf(p, servers).None?;
    assert p.tool[..0] == "";
  }

  /** Split evaluation refines whole evaluation: the harness, deciding static rules itself and
    * asking the client about dynamic ones, permits exactly what the enforcer would. */
  lemma SplitRefinesWhole(ps: seq<Policy>, servers: seq<string>, dynamic: map<string, Policy>, call: ToolCall)
    requires Accepted(ps, servers) && ValidServers(servers) && CallSplits(call)
    requires forall p :: p in ps ==> Known(p.decision) && p.name != WORKSPACE_ONLY
    requires Sound(dynamic, ps) && Complete(dynamic, ps, |ps|)
    ensures HaveHandlers(Sorted(ps)) && forall id :: id in dynamic ==> HasHandler(dynamic[id])
    ensures HarnessWalk(InOrder(ps), dynamic, call) == Walk(Sorted(ps), call).allow
  {
    hide Splits, Known, Accepted, HarnessStep, HarnessWalk, Walk, Decide, RuleOf, RuleId, IsDynamic, Order, Sorted,
      InOrder, Sound, Complete;
    forall p | p in ps ensures Splits(p) && HasHandler(p) {
      AcceptedSplits(ps, servers, p);
      SplitsHasHandler(p);
    }
    SortedHandlers(ps);
    TableHandlers(ps, dynamic);
    var order, sorted, rules := Order(ps, |ps|), Sorted(ps), InOrder(ps);
    forall k | 0 <= k < |ps| ensures HarnessStep(rules[k], dynamic, call) == Permission(Decide(sorted[k], call)) {
      var i := order[k];
      WithinAt(order, |ps|, k);
      assert ps[i] in ps;
      IdsResolve(dynamic, ps, i);
      StepAgrees(ps[i], i, dynamic, call);
    }
    WalksAgree(rules, sorted, dynamic, call);
  }

  lemma SplitsHasHandler(p: Policy)
    requires Splits(p)
    ensures HasHandler(p)
  {
  }

  lemma TableHandlers(ps: seq<Policy>, dynamic: map<string, Policy>)
    requires HaveHandlers(ps) && Sound(dynamic, ps)
    ensures forall id :: id in dynamic ==> HasHandler(dynamic[id])
  {
    forall id | id in dynamic ensures HasHandler(dynamic[id]) {
      var i :| 0 <= i < |ps| && Resolves(dynamic, ps, id, i);
      assert ps[i] in ps;
    }
  }

  // ----- the condition is needed ---------------------------------------------------------

  /** For a call that does not split there are rules an enforcer accepts, one static denial, that
    * the harness and the evaluator decide differently. */
  lemma CallSplitsNeeded(call: ToolCall) returns (ps: seq<Policy>, servers: seq<string>)
    requires !CallSplits(call)
    ensures Accepted(ps, servers) && ValidServers(servers) && HaveHandlers(Sorted(ps))
    ensures forall p :: p in ps ==> Known(p.decision) && p.name != WORKSPACE_ONLY
    ensures Sound(map[], ps) && Complete(map[], ps, |ps|)
    ensures HarnessWalk(InOrder(ps), map[], call) != Walk(Sorted(ps), call).allow
  {
    var target := CallDiffers(call);
    var p := Policy(target, DENY, None, None, "");
    ps, servers := [p], [ParseTarget(target).server];
    ParseMeans(target);
    assert FaultOf(p, servers).None? by { ParsesTo(servers[0], ParseTarget(target).tool); }
    SortedHandlers(ps);
    hide Agree, MatchesTarget, HarnessMatches, Order;
    DenialDiffers(p, call);
    assert Sorted(ps) == [p] && InOrder(ps) == [RuleOf(p, 0)] by { OrderOfOne(ps); }
  }

  lemma OrderOfOne(ps: seq<Policy>)
    requires |ps| == 1
    ensures Order(ps, 1) == [0]
  {
    assert Order(ps, 1)[0] < 1;
  }

  lemma DenialDiffers(p: Policy, call: ToolCall)
    requires p.decision == DENY && p.name == "" && p.when.None? && p.ask.None? && !Agree(p.tool, call)
    ensures HaveHandlers([p]) && HarnessWalk([RuleOf(p, 0)], map[], call) != Walk([p], call).allow
  {
    hide MatchesTarget, HarnessMatches, ParseTarget;
    assert [p][1..] == [] && [RuleOf(p, 0)][1..] == [];
    assert !IsDynamic(p) && ToWire(p.decision) == Denying;
  }
}
