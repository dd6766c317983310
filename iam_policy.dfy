/** The current IAM policy enforcement plugin (iam/policy_enforcement.py):
    policy enabled-ness, prompt-rule filtering, the tool-rule checker that
    injects authentication fields into the tool arguments, the allow/deny
    decision of the before-tool callback, and the extraction of the user
    context and of the last user message. */
module IamPolicy {
  import opened PyValue

  // ---------------------------------------------------------------------
  // Policy document
  // ---------------------------------------------------------------------

  /** `_policy_enabled`: an empty policy is disabled; otherwise its `enabled`
      flag decides, defaulting to on. */
  predicate PolicyEnabled(policy: map<string, Value>) {
    policy != map[] && FlagOn(Get(policy, "enabled", VBool(true)))
  }

  lemma PolicyEnabledCases(policy: map<string, Value>)
    ensures policy == map[] ==> !PolicyEnabled(policy)
    ensures policy != map[] && "enabled" !in policy ==> PolicyEnabled(policy)
    ensures policy != map[] && "enabled" in policy && policy["enabled"].VStr? ==>
      (PolicyEnabled(policy) <==> Lower(policy["enabled"].s) !in {"false", "0", "off"})
  {
  }

  /** A prompt rule is kept when its `enabled` flag (default on) is set and
      its `system_prompt` is non-empty. */
  predicate IsActivePromptRule(rule: map<string, Value>) {
    FlagOn(Get(rule, "enabled", VBool(true))) && Truthy(Get(rule, "system_prompt", VNone))
  }

  /** The loop of `_get_prompt_rules` over a list of rules: every item must be
      a dict (`rule.get` raises otherwise); the active ones are kept in order. */
  function ActivePromptRules(rules: seq<Value>): Result<seq<map<string, Value>>>
    decreases |rules|
  {
    if rules == [] then Ok([])
    else
      var init := ActivePromptRules(rules[..|rules| - 1]);
      var last := rules[|rules| - 1];
      if init.Fault? || !last.VDict? then Fault
      else if IsActivePromptRule(last.fields) then Ok(init.value + [last.fields])
      else init
  }

  /** The loop raises exactly when some rule is not a dict; otherwise it
      keeps exactly the active dict rules, and never more rules than it got. */
  lemma {:induction false} ActivePromptRulesExact(rules: seq<Value>)
    ensures ActivePromptRules(rules).Ok? <==> forall k :: 0 <= k < |rules| ==> rules[k].VDict?
    ensures var r := ActivePromptRules(rules);
      r.Ok? ==> |r.value| <= |rules| && forall m :: m in r.value <==> VDict(m) in rules && IsActivePromptRule(m)
    decreases |rules|
  {
    if rules != [] {
      var n := |rules| - 1;
      var init, last := rules[..n], rules[n];
      assert rules == init + [last];
      ActivePromptRulesExact(init);
      assert forall k :: 0 <= k < n ==> init[k] == rules[k];
    }
  }

  /** Two outcomes of the loop, one after the other. */
  function Concat(a: Result<seq<map<string, Value>>>, b: Result<seq<map<string, Value>>>): Result<seq<map<string, Value>>> {
    if a.Ok? && b.Ok? then Ok(a.value + b.value) else Fault
  }

  /** The filter keeps the original order: filtering a concatenation is the
      concatenation of the filtered parts. */
  lemma {:induction false} ActivePromptRulesAppend(a: seq<Value>, b: seq<Value>)
    ensures ActivePromptRules(a + b) == Concat(ActivePromptRules(a), ActivePromptRules(b))
    decreases |b|
  {
    if b == [] {
      assert a + b == a;
      var ra := ActivePromptRules(a);
      if ra.Ok? {
        assert ra.value + [] == ra.value;
      }
    } else {
      var b', last := b[..|b| - 1], b[|b| - 1];
      assert (a + b)[..|a + b| - 1] == a + b';
      assert (a + b)[|a + b| - 1] == last;
      ActivePromptRulesAppend(a, b');
      var ra, rb' := ActivePromptRules(a), ActivePromptRules(b');
      if ra.Ok? && rb'.Ok? && last.VDict? && IsActivePromptRule(last.fields) {
        assert ra.value + rb'.value + [last.fields] == ra.value + (rb'.value + [last.fields]);
      }
    }
  }

  /** `_get_prompt_rules`: `policy.get("prompt_validation_rules", []) or []`;
      a truthy value that is not a list cannot be iterated as rules and raises. */
  function PromptRules(policy: map<string, Value>): Result<seq<map<string, Value>>> {
    var raw := Or(Get(policy, "prompt_validation_rules", VList([])), VList([]));
    if raw.VList? then ActivePromptRules(raw.items) else Fault
  }

  /** `_get_tool_rules`: the `tool_validation_rules` dict, or an empty one. */
  function ToolRules(policy: map<string, Value>): map<string, Value> {
    var raw := Or(Get(policy, "tool_validation_rules", VNone), VDict(map[]));
    if raw.VDict? then raw.fields else map[]
  }

  // ---------------------------------------------------------------------
  // User context
  // ---------------------------------------------------------------------

  datatype UserContext = UserContext(jwtToken: Value, jwtScheme: Value, userEmail: Value)

  /** The index of the first occurrence of `c` in `s`, or `|s|`. */
  function IndexOf(s: string, c: char): (k: nat)
    ensures k <= |s|
    ensures k < |s| ==> s[k] == c
    ensures forall j :: 0 <= j < k ==> s[j] != c
  {
    if s == [] then 0 else if s[0] == c then 0 else 1 + IndexOf(s[1..], c)
  }

  /** The raw token of the runner state: `user_jwt_token`, or else `user_auth_header`. */
  function RawToken(state: map<string, Value>): Value {
    Or(Get(state, "user_jwt_token", VNone), Get(state, "user_auth_header", VNone))
  }

  /** `_extract_user_context`: reads token, scheme and e-mail from the
      runner state (an absent state reads as the empty dict). When no scheme
      is stored and the token is a string with a space, the text before the
      first space becomes the scheme (none if empty) and the rest becomes the
      token (the original token if the rest is empty). */
  function ExtractUserContext(state: map<string, Value>): (ctx: UserContext)
    ensures ctx.userEmail == Get(state, "user_email", VNone)
    ensures var raw := RawToken(state);
      var scheme := Get(state, "user_jwt_scheme", VNone);
      if Truthy(raw) && !Truthy(scheme) && raw.VStr? && ' ' in raw.s then
        var k := IndexOf(raw.s, ' ');
        ctx.jwtScheme == (if k == 0 then VNone else VStr(raw.s[..k]))
        && ctx.jwtToken == (if k + 1 == |raw.s| then raw else VStr(raw.s[k + 1..]))
      else ctx.jwtScheme == scheme && ctx.jwtToken == raw
  {
    var token := RawToken(state);
    var scheme := Get(state, "user_jwt_scheme", VNone);
    var email := Get(state, "user_email", VNone);
    if Truthy(token) && !Truthy(scheme) && token.VStr? && ' ' in token.s then
      var k := IndexOf(token.s, ' ');
      var head := token.s[..k];
      var rest := token.s[k + 1..];
      UserContext(if rest == [] then token else VStr(rest), if head == [] then VNone else VStr(head), email)
    else
      UserContext(token, scheme, email)
  }

  /** The split is undone by joining scheme and token with one space: a
      header `"<scheme> <token>"` with a space-free scheme and a non-empty
      token comes apart into exactly those two parts. */
  lemma {:induction false} HeaderSplitRoundTrip(state: map<string, Value>, scheme: string, token: string)
    requires RawToken(state) == VStr(scheme + " " + token)
    requires !Truthy(Get(state, "user_jwt_scheme", VNone))
    requires scheme != [] && ' ' !in scheme && token != []
    ensures ExtractUserContext(state).jwtScheme == VStr(scheme)
    ensures ExtractUserContext(state).jwtToken == VStr(token)
  {
    var s := scheme + " " + token;
    assert s[|scheme|] == ' ';
    assert ' ' in s;
    var k := IndexOf(s, ' ');
    assert k == |scheme|;
    assert s[..k] == scheme;
    assert s[k + 1..] == token;
  }

  // ---------------------------------------------------------------------
  // Last user message
  // ---------------------------------------------------------------------

  datatype Part = Part(text: Option<string>)
  datatype Content = Content(role: Option<string>, parts: seq<Part>)

  /** A `user`-role content; with `needParts`, one whose parts are also non-empty. */
  predicate IsUserTurn(c: Content, needParts: bool) {
    c.role == Some("user") && (!needParts || c.parts != [])
  }

  /** The index of the last content that is a user turn, if any. */
  function LastUserTurn(cs: seq<Content>, needParts: bool): (r: Option<nat>)
    ensures r.Some? ==> r.value < |cs| && IsUserTurn(cs[r.value], needParts)
    ensures r.Some? ==> forall j :: r.value < j < |cs| ==> !IsUserTurn(cs[j], needParts)
    ensures r.None? ==> forall j :: 0 <= j < |cs| ==> !IsUserTurn(cs[j], needParts)
  {
    if cs == [] then None
    else if IsUserTurn(cs[|cs| - 1], needParts) then Some(|cs| - 1)
    else LastUserTurn(cs[..|cs| - 1], needParts)
  }

  function TextOf(p: Part): string {
    if p.text.Some? then p.text.value else ""
  }

  /** The texts of the parts, concatenated in order (a missing or empty text adds nothing). */
  function PartsText(parts: seq<Part>): string {
    if parts == [] then "" else PartsText(parts[..|parts| - 1]) + TextOf(parts[|parts| - 1])
  }

  /** The concatenated texts of the last user turn, or "" when there is none. */
  function UserMessage(cs: seq<Content>, needParts: bool): string {
    match LastUserTurn(cs, needParts)
    case None => ""
    case Some(k) => PartsText(cs[k].parts)
  }

  /** `_extract_user_message`: walks the contents from the end and takes the
      first `user` content that has parts. */
  method ExtractUserMessage(contents: seq<Content>) returns (message: string)
    ensures message == UserMessage(contents, true)
  {
    message := "";
    var i := |contents|;
    while i > 0
      invariant 0 <= i <= |contents|
      invariant LastUserTurn(contents, true) == LastUserTurn(contents[..i], true)
    {
      i := i - 1;
      assert contents[..i + 1][..i] == contents[..i];
      var content := contents[i];
      if content.role == Some("user") && content.parts != [] {
        assert LastUserTurn(contents[..i + 1], true) == Some(i);
        message := JoinTexts(content.parts);
        return;
      }
    }
  }

  /** The inner loop: the truthy texts of the parts, concatenated in order. */
  method JoinTexts(parts: seq<Part>) returns (message: string)
    ensures message == PartsText(parts)
  {
    message := "";
    var j := 0;
    while j < |parts|
      invariant 0 <= j <= |parts|
      invariant message == PartsText(parts[..j])
    {
      assert parts[..j + 1][..j] == parts[..j];
      var text := parts[j].text;
      if text.Some? && text.value != "" {
        message := message + text.value;
      }
      j := j + 1;
    }
    assert parts[..j] == parts;
  }

  // ---------------------------------------------------------------------
  // Tool rule checks, in the order `_check_tool_rule` applies them
  // ---------------------------------------------------------------------

  /** Allowed agents: applies when the rule's list is truthy; the target is
      `agent_name`, or else `agent`; an absent target passes. */
  function AllowedAgentsStep(toolName: string, args: map<string, Value>, rule: map<string, Value>): Result<Option<string>> {
    var allowed := Get(rule, "allowed_agents", VNone);
    var agent := Or(Get(args, "agent_name", VNone), Get(args, "agent", VNone));
    if !Truthy(allowed) || !Truthy(agent) then Ok(None)
    else match Contains(allowed, agent)
      case None => Fault
      case Some(found) =>
        if found then Ok(None)
        else Ok(Some("Agent '" + ToStr(agent) + "' is not allowed for " + toolName))
  }

  /** Maximum task length: applies when the bound is an int; `task` defaults
      to "" and must have a length. */
  function TaskLengthStep(args: map<string, Value>, rule: map<string, Value>): Result<Option<string>> {
    var bound := Get(rule, "max_task_length", VNone);
    var task := Or(Get(args, "task", VStr("")), VStr(""));
    if !IsInt(bound) then Ok(None)
    else match Len(task)
      case None => Fault
      case Some(n) =>
        if n > IntOf(bound) then
          Ok(Some("Task length (" + NatToDecimal(n) + ") exceeds maximum (" + ToStr(bound) + ")"))
        else Ok(None)
  }

  predicate RequiresAuth(rule: map<string, Value>) {
    FlagOn(Get(rule, "requires_auth", VNone))
  }

  /** The token the auth check accepts: the argument's, or else the context's. */
  function AuthToken(args: map<string, Value>, ctx: UserContext): Value {
    Or(Get(args, "auth_token", VNone), ctx.jwtToken)
  }

  /** What a passed auth check writes into the arguments: the scheme and the
      e-mail when known, and the token, each only when its key is absent. */
  function InjectAuth(args: map<string, Value>, ctx: UserContext, token: Value): map<string, Value> {
    var a1 := if Truthy(ctx.jwtScheme) && "auth_scheme" !in args then args["auth_scheme" := ctx.jwtScheme] else args;
    var a2 := if Truthy(ctx.userEmail) && "user_email" !in a1 then a1["user_email" := ctx.userEmail] else a1;
    if "auth_token" in a2 then a2 else a2["auth_token" := token]
  }

  const AuthMessage := "Authentication required for this tool"

  /** Requires-auth: denies when no token is truthy, injects the auth fields otherwise. */
  function AuthStep(args: map<string, Value>, rule: map<string, Value>, ctx: UserContext): (Option<string>, map<string, Value>) {
    if !RequiresAuth(rule) then (None, args)
    else if !Truthy(AuthToken(args, ctx)) then (Some(AuthMessage), args)
    else (None, InjectAuth(args, ctx, AuthToken(args, ctx)))
  }

  /** Maximum results: a violation when both bound and `limit` are ints and the limit is larger. */
  function MaxResultsStep(args: map<string, Value>, rule: map<string, Value>): Option<string> {
    var bound := Get(rule, "max_results", VNone);
    var limit := Get(args, "limit", VNone);
    if IsInt(bound) && IsInt(limit) && IntOf(limit) > IntOf(bound) then
      Some("Requested limit (" + ToStr(limit) + ") exceeds maximum (" + ToStr(bound) + ")")
    else None
  }

  /** `_check_tool_rule` as a function of the arguments: the first violation
      (or the exception) and the argument map afterwards. */
  function CheckToolRuleSpec(toolName: string, args: map<string, Value>, rule: map<string, Value>, ctx: UserContext)
    : (Result<Option<string>>, map<string, Value>)
  {
    var agents := AllowedAgentsStep(toolName, args, rule);
    if agents != Ok(None) then (agents, args)
    else
      var length := TaskLengthStep(args, rule);
      if length != Ok(None) then (length, args)
      else
        var (auth, args') := AuthStep(args, rule, ctx);
        if auth.Some? then (Ok(auth), args')
        else (Ok(MaxResultsStep(args', rule)), args')
  }

  /** `_check_tool_rule`: the checks in order, stopping at the first
      violation; a passed auth check updates `args` in place. */
  method CheckToolRule(toolName: string, args: PyDict, rule: map<string, Value>, ctx: UserContext)
    returns (violation: Result<Option<string>>)
    modifies args
    ensures (violation, args.entries) == CheckToolRuleSpec(toolName, old(args.entries), rule, ctx)
  {
    var allowedAgents := Get(rule, "allowed_agents", VNone);
    if Truthy(allowedAgents) {
      var agentName := Or(Get(args.entries, "agent_name", VNone), Get(args.entries, "agent", VNone));
      if Truthy(agentName) {
        var found := Contains(allowedAgents, agentName);
        if found.None? {
          return Fault;
        }
        if !found.value {
          return Ok(Some("Agent '" + ToStr(agentName) + "' is not allowed for " + toolName));
        }
      }
    }

    var maxTaskLength := Get(rule, "max_task_length", VNone);
    if IsInt(maxTaskLength) {
      var task := Or(Get(args.entries, "task", VStr("")), VStr(""));
      var n := Len(task);
      if n.None? {
        return Fault;
      }
      if n.value > IntOf(maxTaskLength) {
        return Ok(Some("Task length (" + NatToDecimal(n.value) + ") exceeds maximum (" + ToStr(maxTaskLength) + ")"));
      }
    }

    if RequiresAuth(rule) {
      var authToken := Or(Get(args.entries, "auth_token", VNone), ctx.jwtToken);
      if !Truthy(authToken) {
        return Ok(Some(AuthMessage));
      }
      if Truthy(ctx.jwtScheme) && "auth_scheme" !in args.entries {
        args.entries := args.entries["auth_scheme" := ctx.jwtScheme];
      }
      if Truthy(ctx.userEmail) && "user_email" !in args.entries {
        args.entries := args.entries["user_email" := ctx.userEmail];
      }
      if "auth_token" !in args.entries {
        args.entries := args.entries["auth_token" := authToken];
      }
    }

    var maxResults := Get(rule, "max_results", VNone);
    if IsInt(maxResults) {
      var limit := Get(args.entries, "limit", VNone);
      if IsInt(limit) && IntOf(limit) > IntOf(maxResults) {
        return Ok(Some("Requested limit (" + ToStr(limit) + ") exceeds maximum (" + ToStr(maxResults) + ")"));
      }
    }
    return Ok(None);
  }

  // ---------------------------------------------------------------------
  // Properties of the tool-rule check
  // ---------------------------------------------------------------------

  /** Injection adds at most `auth_scheme`, `user_email` and `auth_token`,
      never overwrites a key that is present and changes no other key. */
  lemma CheckToolRuleOnlyInjectsAuthKeys(toolName: string, args: map<string, Value>, rule: map<string, Value>, ctx: UserContext)
    ensures var args' := CheckToolRuleSpec(toolName, args, rule, ctx).1;
      (forall k :: k in args ==> k in args' && args'[k] == args[k])
      && (forall k :: k in args' && k !in args ==> k in {"auth_scheme", "user_email", "auth_token"})
  {
  }

  /** When the allowed-agents or the task-length check already failed, no
      argument is touched. */
  lemma EarlyViolationLeavesArgs(toolName: string, args: map<string, Value>, rule: map<string, Value>, ctx: UserContext)
    requires AllowedAgentsStep(toolName, args, rule) != Ok(None) || TaskLengthStep(args, rule) != Ok(None)
    ensures CheckToolRuleSpec(toolName, args, rule, ctx).1 == args
  {
  }

  /** The checks stop at the first violation: an allowed-agents violation
      is the result whatever the later checks would say. */
  lemma AllowedAgentsFirst(toolName: string, args: map<string, Value>, rule: map<string, Value>, ctx: UserContext)
    requires AllowedAgentsStep(toolName, args, rule) != Ok(None)
    ensures CheckToolRuleSpec(toolName, args, rule, ctx) == (AllowedAgentsStep(toolName, args, rule), args)
  {
  }

  /** The allowed-agents check blocks exactly a present target (`agent_name`,
      or else `agent`) that is not in a non-empty list, and names it. */
  lemma AllowedAgentsViolationIff(toolName: string, args: map<string, Value>, rule: map<string, Value>, agents: seq<Value>)
    requires Get(rule, "allowed_agents", VNone) == VList(agents) && agents != []
    ensures var target := Or(Get(args, "agent_name", VNone), Get(args, "agent", VNone));
      var step := AllowedAgentsStep(toolName, args, rule);
      step.Ok?
      && (step.value.Some? <==> Truthy(target) && !(exists k :: 0 <= k < |agents| && PyEq(agents[k], target)))
      && (step.value.Some? ==> step.value.value == "Agent '" + ToStr(target) + "' is not allowed for " + toolName)
  {
  }

  /** The task-length check blocks iff the task is longer than an int bound; equal length passes. */
  lemma TaskLengthViolationIff(args: map<string, Value>, rule: map<string, Value>, task: string)
    requires IsInt(Get(rule, "max_task_length", VNone))
    requires Get(args, "task", VStr("")) == VStr(task)
    ensures TaskLengthStep(args, rule).Ok?
    ensures TaskLengthStep(args, rule).value.Some? <==> |task| > IntOf(Get(rule, "max_task_length", VNone))
  {
  }

  /** Requires-auth denies exactly when neither the argument nor the context holds a truthy token. */
  lemma AuthDeniedIff(toolName: string, args: map<string, Value>, rule: map<string, Value>, ctx: UserContext)
    requires AllowedAgentsStep(toolName, args, rule) == Ok(None) && TaskLengthStep(args, rule) == Ok(None)
    requires RequiresAuth(rule)
    ensures CheckToolRuleSpec(toolName, args, rule, ctx).0 == Ok(Some(AuthMessage))
      <==> !Truthy(Get(args, "auth_token", VNone)) && !Truthy(ctx.jwtToken)
  {
    var (auth, args') := AuthStep(args, rule, ctx);
    if auth.None? {
      var m := MaxResultsStep(args', rule);
      if m.Some? {
        assert m.value[0] == 'R' && AuthMessage[0] == 'A';
      }
    }
  }

  /** Max-results blocks iff `limit` is an int strictly above an int bound. */
  lemma MaxResultsViolationIff(toolName: string, args: map<string, Value>, rule: map<string, Value>, ctx: UserContext)
    requires AllowedAgentsStep(toolName, args, rule) == Ok(None) && TaskLengthStep(args, rule) == Ok(None)
    requires !RequiresAuth(rule) || Truthy(AuthToken(args, ctx))
    ensures var bound := Get(rule, "max_results", VNone);
      var limit := Get(args, "limit", VNone);
      CheckToolRuleSpec(toolName, args, rule, ctx).0.value.Some?
      <==> IsInt(bound) && IsInt(limit) && IntOf(limit) > IntOf(bound)
  {
    var args' := AuthStep(args, rule, ctx).1;
    assert Get(args', "limit", VNone) == Get(args, "limit", VNone);
  }

  /** `setdefault` keeps an `auth_token` key that is present but empty, even
      when the check passed on the context's token: the tool then receives
      the empty token. */
  lemma EmptyArgTokenIsKept()
    ensures var args := map["auth_token" := VStr("")];
      var rule := map["requires_auth" := VBool(true)];
      var ctx := UserContext(VStr("abc"), VNone, VNone);
      CheckToolRuleSpec("t", args, rule, ctx) == (Ok(None), args)
  {
  }

  // ---------------------------------------------------------------------
  // The before-tool callback
  // ---------------------------------------------------------------------

  /** The error dict a blocked call returns. */
  function Blocked(violation: string): Value {
    VDict(map["error" := VStr("Tool call blocked: " + violation)])
  }

  /** The decision of `before_tool_callback` and the arguments afterwards:
      allow (`None`) when the policy is disabled, has no tool rules or no
      truthy rule for the tool; otherwise the rule is checked. */
  function ToolCallDecision(policy: map<string, Value>, toolName: string, args: map<string, Value>, state: map<string, Value>)
    : (Result<Option<Value>>, map<string, Value>)
  {
    var rules := ToolRules(policy);
    var rule := Get(rules, toolName, VNone);
    if !PolicyEnabled(policy) || rules == map[] || !Truthy(rule) then (Ok(None), args)
    else if !rule.VDict? then (Fault, args)
    else
      var (violation, args') := CheckToolRuleSpec(toolName, args, rule.fields, ExtractUserContext(state));
      match violation
      case Fault => (Fault, args')
      case Ok(v) => (Ok(if v.Some? then Some(Blocked(v.value)) else None), args')
  }

  /** Disabled policies, empty rule maps and tools without a rule are allowed and leave the arguments alone. */
  lemma UnruledCallsAllowed(policy: map<string, Value>, toolName: string, args: map<string, Value>, state: map<string, Value>)
    requires !PolicyEnabled(policy) || ToolRules(policy) == map[] || toolName !in ToolRules(policy)
    ensures ToolCallDecision(policy, toolName, args, state) == (Ok(None), args)
  {
  }

  /** With a dict rule for the tool, the call is blocked exactly when the
      rule check reports a violation, and the error names it. */
  lemma BlockedIffViolation(policy: map<string, Value>, toolName: string, args: map<string, Value>, state: map<string, Value>)
    requires PolicyEnabled(policy)
    requires toolName in ToolRules(policy) && ToolRules(policy)[toolName].VDict?
    requires ToolRules(policy)[toolName] != VDict(map[])
    ensures var check := CheckToolRuleSpec(toolName, args, ToolRules(policy)[toolName].fields, ExtractUserContext(state));
      var decision := ToolCallDecision(policy, toolName, args, state);
      decision.1 == check.1
      && (decision.0 == Fault <==> check.0 == Fault)
      && (check.0.Ok? && check.0.value.Some? <==> decision.0.Ok? && decision.0.value.Some?)
      && (check.0.Ok? && check.0.value.Some? ==> decision.0.value.value == Blocked(check.0.value.value))
  {
  }

  /** The plugin object: the agent it serves and the policy it fetched. */
  class PolicyPlugin {
    const agentId: string
    var policy: map<string, Value>

    /** `__init__` ends with `fetch_policy`; `fetched` is the server's
        answer (`None` when the request failed). */
    constructor (agentId: string, fetched: Option<map<string, Value>>)
      ensures this.agentId == agentId
      ensures policy == (if fetched.Some? then fetched.value else map[])
    {
      this.agentId := agentId;
      policy := if fetched.Some? then fetched.value else map[];
    }

    /** `fetch_policy`: the fetched policy, or the empty (disabled) policy on failure. */
    method FetchPolicy(fetched: Option<map<string, Value>>)
      modifies this
      ensures policy == (if fetched.Some? then fetched.value else map[])
      ensures fetched.None? ==> !PolicyEnabled(policy)
    {
      policy := if fetched.Some? then fetched.value else map[];
    }

    /** `_get_prompt_rules`, as the loop that builds the list. */
    method GetPromptRules() returns (r: Result<seq<map<string, Value>>>)
      ensures r == PromptRules(policy)
    {
      var raw := Or(Get(policy, "prompt_validation_rules", VList([])), VList([]));
      if !raw.VList? {
        return Fault;
      }
      var rules := raw.items;
      var enabledRules: seq<map<string, Value>> := [];
      var i := 0;
      while i < |rules|
        invariant 0 <= i <= |rules|
        invariant ActivePromptRules(rules[..i]) == Ok(enabledRules)
      {
        var rule := rules[i];
        if !rule.VDict? {
          ActivePromptRulesExact(rules);
          return Fault;
        }
        assert rules[..i + 1] == rules[..i] + [rule];
        assert rules[..i + 1][..i] == rules[..i];
        if IsActivePromptRule(rule.fields) {
          enabledRules := enabledRules + [rule.fields];
        }
        i := i + 1;
      }
      assert rules[..i] == rules;
      return Ok(enabledRules);
    }

    /** `before_tool_callback`: `None` allows the call, an error dict blocks
        it; a passed auth check leaves the injected fields in `args`. */
    method BeforeToolCallback(toolName: string, args: PyDict, state: map<string, Value>)
      returns (r: Result<Option<Value>>)
      modifies args
      ensures (r, args.entries) == ToolCallDecision(policy, toolName, old(args.entries), state)
    {
      if !PolicyEnabled(policy) {
        return Ok(None);
      }
      var toolRules := ToolRules(policy);
      if toolRules == map[] {
        return Ok(None);
      }
      var rule := Get(toolRules, toolName, VNone);
      if !Truthy(rule) {
        return Ok(None);
      }
      if !rule.VDict? {
        return Fault;
      }
      var userCtx := ExtractUserContext(state);
      var violation := CheckToolRule(toolName, args, rule.fields, userCtx);
      if violation.Fault? {
        return Fault;
      }
      if violation.value.Some? {
        return Ok(Some(Blocked(violation.value.value)));
      }
      return Ok(None);
    }
  }
}
