/** The legacy policy enforcement plugin of the delivery agent
    (agents/delivery_agent/policy_enforcement_plugin.py): the same rule
    kinds as the current plugin, with key-presence triggers, no argument
    updates and a default `limit` of 9999; and the lemmas that state where
    the two versions differ. */
module DeliveryPolicy {
  import opened PyValue
  import IamPolicy

  /** The policy the plugin falls back to when `fetch_policies` fails. */
  const FailedFetchPolicies := VDict(map["policies" := VDict(map[])])

  /** Allowed agents, triggered by the key alone: a non-empty `agent_name`
      that the listed agents do not contain is a violation. */
  function LegacyAgentStep(args: map<string, Value>, rule: map<string, Value>): Result<Option<string>> {
    var agent := Get(args, "agent_name", VStr(""));
    if "allowed_agents" !in rule || !Truthy(agent) then Ok(None)
    else match Contains(rule["allowed_agents"], agent)
      case None => Fault
      case Some(found) => Ok(if found then None else Some("Agent '" + ToStr(agent) + "' is not allowed for this tool"))
  }

  /** Maximum task length: `len(task)` (a missing task is "") compared with `>`. */
  function LegacyTaskStep(args: map<string, Value>, rule: map<string, Value>): Result<Option<string>> {
    if "max_task_length" !in rule then Ok(None)
    else
      var bound := rule["max_task_length"];
      match Len(Get(args, "task", VStr("")))
      case None => Fault
      case Some(n) =>
        match Greater(VInt(n), bound)
        case None => Fault
        case Some(tooLong) =>
          Ok(if tooLong then Some("Task length (" + NatToDecimal(n) + ") exceeds maximum (" + ToStr(bound) + ")") else None)
  }

  /** Requires-auth by plain truthiness of the rule's flag and of the argument token. */
  function LegacyAuthStep(args: map<string, Value>, rule: map<string, Value>): Option<string> {
    if Truthy(Get(rule, "requires_auth", VNone)) && !Truthy(Get(args, "auth_token", VNone)) then Some(IamPolicy.AuthMessage)
    else None
  }

  /** Maximum results: `limit` (9999 when missing) compared with `>`. */
  function LegacyLimitStep(args: map<string, Value>, rule: map<string, Value>): Result<Option<string>> {
    if "max_results" !in rule then Ok(None)
    else
      var limit := Get(args, "limit", VInt(9999));
      match Greater(limit, rule["max_results"])
      case None => Fault
      case Some(tooMany) =>
        Ok(if tooMany then Some("Requested limit (" + ToStr(limit) + ") exceeds maximum (" + ToStr(rule["max_results"]) + ")") else None)
  }

  /** `_check_tool_rule` of the legacy plugin: the first step that raises or
      reports a violation decides. A rule that is not a dict raises (`in`,
      indexing or `.get` fail on it). */
  function LegacyCheckToolRule(args: map<string, Value>, rule: Value): Result<Option<string>> {
    if !rule.VDict? then Fault
    else
      var r := rule.fields;
      var agents := LegacyAgentStep(args, r);
      if agents != Ok(None) then agents
      else
        var length := LegacyTaskStep(args, r);
        if length != Ok(None) then length
        else
          var auth := LegacyAuthStep(args, r);
          if auth.Some? then Ok(auth)
          else LegacyLimitStep(args, r)
  }

  /** The `tool_validation` section when tool validation is on (`None` when
      the policies are falsy or `policies.tool_validation.enabled` is falsy);
      a level that is not a dict makes `.get` raise. */
  function ToolValidation(policies: Value): Result<Option<map<string, Value>>> {
    if !Truthy(policies) then Ok(None)
    else if !policies.VDict? then Fault
    else
      var p := Get(policies.fields, "policies", VDict(map[]));
      if !p.VDict? then Fault
      else
        var tv := Get(p.fields, "tool_validation", VDict(map[]));
        if !tv.VDict? then Fault
        else if !Truthy(Get(tv.fields, "enabled", VNone)) then Ok(None)
        else Ok(Some(tv.fields))
  }

  /** The decision of the legacy `before_tool_callback`: `None` allows, an
      error dict blocks. The tool must be a key of `rules` for its rule to
      be checked (`in` on a rules value that is not a dict either raises or,
      when it finds the name, indexing it raises). */
  function LegacyToolCallDecision(policies: Value, toolName: string, args: map<string, Value>): Result<Option<Value>> {
    match ToolValidation(policies)
    case Fault => Fault
    case Ok(tv) =>
      if tv.None? then Ok(None)
      else
        var rules := Get(tv.value, "rules", VDict(map[]));
        match Contains(rules, VStr(toolName))
        case None => Fault
        case Some(found) =>
          if !found then Ok(None)
          else if !rules.VDict? then Fault
          else match LegacyCheckToolRule(args, rules.fields[toolName])
            case Fault => Fault
            case Ok(v) => Ok(if v.Some? then Some(IamPolicy.Blocked(v.value)) else None)
  }

  // ---------------------------------------------------------------------
  // Properties of the legacy plugin
  // ---------------------------------------------------------------------

  /** After a failed fetch (`{"policies": {}}`) every tool call is allowed. */
  lemma FailedFetchAllowsAll(toolName: string, args: map<string, Value>)
    ensures LegacyToolCallDecision(FailedFetchPolicies, toolName, args) == Ok(None)
  {
  }

  /** A call is blocked only when tool validation is on, the tool name is a
      key of the `rules` dict and its rule reports the violation named in the error. */
  lemma BlockedOnlyWhenRuled(policies: Value, toolName: string, args: map<string, Value>)
    requires LegacyToolCallDecision(policies, toolName, args).Ok?
    requires LegacyToolCallDecision(policies, toolName, args).value.Some?
    ensures ToolValidation(policies).Ok? && ToolValidation(policies).value.Some?
    ensures var rules := Get(ToolValidation(policies).value.value, "rules", VDict(map[]));
      rules.VDict? && toolName in rules.fields
      && var v := LegacyCheckToolRule(args, rules.fields[toolName]);
      v.Ok? && v.value.Some? && LegacyToolCallDecision(policies, toolName, args).value.value == IamPolicy.Blocked(v.value.value)
  {
  }

  /** Allowed agents: only `agent_name` is read; an absent or empty name
      passes, a named agent passes iff the list contains it. */
  lemma LegacyAgentIff(args: map<string, Value>, rule: map<string, Value>, agents: seq<Value>, agent: string)
    requires Get(rule, "allowed_agents", VNone) == VList(agents) && "allowed_agents" in rule
    requires Get(args, "agent_name", VStr("")) == VStr(agent)
    ensures LegacyAgentStep(args, rule).Ok?
    ensures LegacyAgentStep(args, rule).value.Some? <==> agent != [] && VStr(agent) !in agents
  {
    if agent != [] && LegacyAgentStep(args, rule).value.None? {
      var k :| 0 <= k < |agents| && PyEq(agents[k], VStr(agent));
      assert agents[k] == VStr(agent);
    }
    if agent != [] && VStr(agent) in agents {
      var k :| 0 <= k < |agents| && agents[k] == VStr(agent);
      assert PyEq(agents[k], VStr(agent));
    }
  }

  /** Task length: with a string task and an int bound, a violation iff the task is longer. */
  lemma LegacyTaskLengthIff(args: map<string, Value>, rule: map<string, Value>, task: string, bound: int)
    requires Get(rule, "max_task_length", VNone) == VInt(bound) && "max_task_length" in rule
    requires Get(args, "task", VStr("")) == VStr(task)
    ensures LegacyTaskStep(args, rule).Ok?
    ensures LegacyTaskStep(args, rule).value.Some? <==> |task| > bound
  {
  }

  /** Requires-auth, once the earlier checks passed: the call is refused for
      authentication exactly when the flag is truthy (a string such as
      "false" counts as set) and the argument token is falsy; the context's
      token is never consulted. */
  lemma LegacyAuthIff(args: map<string, Value>, rule: map<string, Value>)
    requires LegacyAgentStep(args, rule) == Ok(None) && LegacyTaskStep(args, rule) == Ok(None)
    ensures LegacyCheckToolRule(args, VDict(rule)) == Ok(Some(IamPolicy.AuthMessage))
      <==> Truthy(Get(rule, "requires_auth", VNone)) && !Truthy(Get(args, "auth_token", VNone))
  {
    if LegacyAuthStep(args, rule).None? {
      var m := LegacyLimitStep(args, rule);
      if m.Ok? && m.value.Some? {
        assert m.value.value[0] == 'R' && IamPolicy.AuthMessage[0] == 'A';
      }
    }
  }

  /** The steps run in order and the first violation or exception decides:
      the check passes iff every step passes. */
  lemma LegacyPassesIffAllStepsPass(args: map<string, Value>, rule: map<string, Value>)
    ensures LegacyCheckToolRule(args, VDict(rule)) == Ok(None) <==>
      LegacyAgentStep(args, rule) == Ok(None) && LegacyTaskStep(args, rule) == Ok(None)
      && LegacyAuthStep(args, rule).None? && LegacyLimitStep(args, rule) == Ok(None)
  {
  }

  /** Max results: a call without `limit` is blocked whenever the int bound is below 9999. */
  lemma LegacyMissingLimitBlocked(args: map<string, Value>, bound: int)
    requires "limit" !in args
    requires bound < 9999
    ensures LegacyLimitStep(args, map["max_results" := VInt(bound)])
      == Ok(Some("Requested limit (9999) exceeds maximum (" + IntToDecimal(bound) + ")"))
  {
    DefaultLimitText();
    var rule := map["max_results" := VInt(bound)];
    assert Get(args, "limit", VInt(9999)) == VInt(9999);
    assert "max_results" in rule && rule["max_results"] == VInt(bound);
    assert Greater(VInt(9999), VInt(bound)) == Some(true);
    assert ToStr(VInt(bound)) == IntToDecimal(bound);
    assert "Requested limit (" + "9999" + ") exceeds maximum (" == "Requested limit (9999) exceeds maximum (";
  }

  /** The default limit prints as "9999". */
  lemma DefaultLimitText()
    ensures ToStr(VInt(9999)) == "9999"
  {
    assert NatToDecimal(9) == "9";
    assert NatToDecimal(99) == NatToDecimal(9) + [DigitChar(9)];
    assert NatToDecimal(999) == NatToDecimal(99) + [DigitChar(9)];
    assert NatToDecimal(9999) == NatToDecimal(999) + [DigitChar(9)];
  }

  // ---------------------------------------------------------------------
  // Where the legacy and the current checker differ
  // ---------------------------------------------------------------------

  /** A missing `limit`: the legacy checker blocks, the current one passes. */
  lemma MissingLimitDiffers(bound: int)
    requires 0 <= bound < 9999
    ensures LegacyCheckToolRule(map[], VDict(map["max_results" := VInt(bound)])).value.Some?
    ensures IamPolicy.CheckToolRuleSpec("t", map[], map["max_results" := VInt(bound)], IamPolicy.UserContext(VNone, VNone, VNone))
      == (Ok(None), map[])
  {
  }

  /** The string "false" for `requires_auth`: the legacy checker demands a
      token (a non-empty string is truthy), the current one parses it as off. */
  lemma StringFalseAuthDiffers()
    ensures LegacyCheckToolRule(map[], VDict(map["requires_auth" := VStr("false")])) == Ok(Some(IamPolicy.AuthMessage))
    ensures IamPolicy.CheckToolRuleSpec("t", map[], map["requires_auth" := VStr("false")], IamPolicy.UserContext(VNone, VNone, VNone))
      == (Ok(None), map[])
  {
    assert Lower("false") == "false";
  }

  /** An empty allow-list: the legacy checker triggers on the key and blocks
      every named agent, the current one skips the falsy list. */
  lemma EmptyAllowListDiffers(agent: string)
    requires agent != ""
    ensures LegacyCheckToolRule(map["agent_name" := VStr(agent)], VDict(map["allowed_agents" := VList([])]))
      == Ok(Some("Agent '" + agent + "' is not allowed for this tool"))
    ensures IamPolicy.CheckToolRuleSpec("t", map["agent_name" := VStr(agent)], map["allowed_agents" := VList([])],
                                        IamPolicy.UserContext(VNone, VNone, VNone)).0 == Ok(None)
  {
  }

  /** The last `user` content without parts: the legacy plugin stops there
      and returns "", the current one goes on to the earlier user content. */
  lemma UserMessageDiffers()
    ensures var cs := [IamPolicy.Content(Some("user"), [IamPolicy.Part(Some("hi"))]), IamPolicy.Content(Some("user"), [])];
      IamPolicy.UserMessage(cs, true) == "hi" && IamPolicy.UserMessage(cs, false) == ""
  {
    var cs := [IamPolicy.Content(Some("user"), [IamPolicy.Part(Some("hi"))]), IamPolicy.Content(Some("user"), [])];
    assert cs[..1] == [cs[0]];
    var parts := cs[0].parts;
    assert parts[..0] == [];
  }

  /** The legacy plugin object and the policies it fetched. */
  class LegacyPlugin {
    const agentId: string
    var policies: Value

    /** `__init__` sets the policies to `None` and then fetches them. */
    constructor (agentId: string, fetched: Option<Value>)
      ensures this.agentId == agentId
      ensures policies == (if fetched.Some? then fetched.value else FailedFetchPolicies)
    {
      this.agentId := agentId;
      policies := VNone;
      new;
      FetchPolicies(fetched);
    }

    /** `fetch_policies`: the server's answer, or `{"policies": {}}` when the request failed. */
    method FetchPolicies(fetched: Option<Value>)
      modifies this
      ensures policies == (if fetched.Some? then fetched.value else FailedFetchPolicies)
    {
      policies := if fetched.Some? then fetched.value else FailedFetchPolicies;
    }

    /** `before_tool_callback`: never changes the arguments. */
    method BeforeToolCallback(toolName: string, args: map<string, Value>) returns (r: Result<Option<Value>>)
      ensures r == LegacyToolCallDecision(policies, toolName, args)
    {
      var tv := ToolValidation(policies);
      if tv.Fault? {
        return Fault;
      }
      if tv.value.None? {
        return Ok(None);
      }
      var rules := Get(tv.value.value, "rules", VDict(map[]));
      var found := Contains(rules, VStr(toolName));
      if found.None? {
        return Fault;
      }
      if found.value {
        if !rules.VDict? {
          return Fault;
        }
        var violation := LegacyCheckToolRule(args, rules.fields[toolName]);
        if violation.Fault? {
          return Fault;
        }
        if violation.value.Some? {
          return Ok(Some(IamPolicy.Blocked(violation.value.value)));
        }
      }
      return Ok(None);
    }
  }

  /** `_extract_user_message` of the legacy plugin: walks the contents from
      the end and stops at the first `user` content, parts or not. */
  method LegacyExtractUserMessage(contents: seq<IamPolicy.Content>) returns (message: string)
    ensures message == IamPolicy.UserMessage(contents, false)
  {
    message := "";
    var i := |contents|;
    while i > 0
      invariant 0 <= i <= |contents|
      invariant IamPolicy.LastUserTurn(contents, false) == IamPolicy.LastUserTurn(contents[..i], false)
    {
      i := i - 1;
      assert contents[..i + 1][..i] == contents[..i];
      var content := contents[i];
      if content.role == Some("user") {
        assert IamPolicy.LastUserTurn(contents[..i + 1], false) == Some(i);
        message := LegacyJoinTexts(content.parts);
        return;
      }
    }
  }

  /** The inner loop: every text that is not `None`, concatenated in order. */
  method LegacyJoinTexts(parts: seq<IamPolicy.Part>) returns (message: string)
    ensures message == IamPolicy.PartsText(parts)
  {
    message := "";
    var j := 0;
    while j < |parts|
      invariant 0 <= j <= |parts|
      invariant message == IamPolicy.PartsText(parts[..j])
    {
      assert parts[..j + 1][..j] == parts[..j];
      var text := parts[j].text;
      if text.Some? {
        message := message + text.value;
      }
      j := j + 1;
    }
    assert parts[..j] == parts;
  }
}
