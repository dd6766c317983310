# Attager IAM plugin and its services, in Dafny

This project models the policy-enforcement core of the Attager multi-agent system and proves properties of that model. The core consists of:

- **The IAM policy plugin** (`iam/policy_enforcement.py`). It fetches an agent's policy and decides whether the policy is enabled. It picks the active prompt-validation rules, reads the caller's JWT from the session state and splits it into scheme and token, and extracts the last user message. Before each tool call it checks the tool's rule in this order: allowed agents, task length, requires-auth (injecting the user's credentials into the tool arguments) and maximum results. A violation blocks the call.
- **The delivery agent's older plugin** (`agents/delivery_agent/policy_enforcement_plugin.py`). Its checks have the same shape but differ in several edge cases. The model proves where they differ from the IAM plugin.
- **The IAM database** (`frontend/database.py`), an `IAMDatabase` object over Redis. It covers seeding the default data, CRUD for agents, rulesets and policies, `get_policy_by_agent` with its enrichment from the referenced rulesets, the capped log list and the statistics.
- **The chat client's backend** (`client/app.py`). It covers the in-memory session map, tenant normalisation, reply extraction from the orchestrator's JSON-RPC result, the `Authorization` header, and the input checks of login and chat.
- **The JWT server's user logic** (`jwt-server/app/users.py`). It covers the fixed user table, login and `/users/me` with its tenant comparison.
- **The JWS card signer** (`jws-server/jws.py`). It covers the hash material of an agent card, the defaults and validation of `sign_payload`, and the hash comparison of `verify_token`.
- **The Redis seed script** (`agentDB/seed_agent_data.py`). It covers parsing the command file, and validating and queueing the HSET and SET operations all or none. The queued operations then run in a pipeline without a transaction, so a failing operation does not undo the others.

## How the model is built

Python values are the datatype `PyValue.Value`: None, bool, int, float, str, list and dict. Python's truthiness, `.get`, `in`, `len`, `str()`, `strip`, `lower`, `upper` and comparisons are functions over it. A dict that the source mutates in place, such as tool arguments or the `data` argument of a create, is the class `PyDict`.

An exception that escapes an operation is the `Fault` case of `Result`. An HTTP endpoint answers with `Response`: a reply, an `HttpError(status, detail)` or a crash.

Redis is `KeyValue.Store`, a map from key to a hash, set, list or string. The commands are functions over this map, with redis-py's behaviour:

- HSET with an empty mapping raises.
- A set or list left empty disappears from the keyspace.
- LRANGE and LTRIM take inclusive, possibly negative bounds.
- A key of the wrong type raises.

Each imperative operation is a `method` that mutates its object's fields. The method's `ensures` ties its result and new state to a specification function, and the properties are proved about that function as lemmas. The pure files (`users.py`, `jws.py`) are functions and lemmas.

Library primitives are parameters:

- JSON `dumps`/`loads` (the `Json` datatype);
- SHA-256 with canonical JSON, JWS encoding and decoding (`Crypto`);
- `shlex.split`;
- password verification;
- token issuing and decoding;
- the clock, `uuid` and `secrets`.

Where a property needs a library promise, the lemma states it as a `requires` about the one value it uses, such as `loads(dumps(rules)) == rules` for the rules just stored.

## Model

| member | source | states |
|---|---|---|
| IamPolicy.PolicyEnabledCases | iam/policy_enforcement.py:157-163 | An empty policy is disabled, and a missing `enabled` means enabled. A string `enabled` is off exactly when its lowercase form is "false", "0" or "off". |
| IamPolicy.ActivePromptRulesExact | iam/policy_enforcement.py:165-174 | The rules are read without error exactly when every rule is a dict. The result holds exactly the dict rules that are enabled (default on, same string parsing) and have a non-empty `system_prompt`, and it is no longer than the input. |
| IamPolicy.ActivePromptRulesAppend | iam/policy_enforcement.py:168-174 | Filtering commutes with concatenation, so the active rules keep their original order. |
| IamPolicy.PolicyPlugin.GetPromptRules | iam/policy_enforcement.py:165-174 | The loop returns the active prompt rules of the current policy, or faults as the source would. |
| IamPolicy.ExtractUserContext | iam/policy_enforcement.py:299-318 | The email is read from the state. When no scheme is stored and the token has a space, the scheme is the text before the first space (None if empty) and the token is the rest, or the whole token if the rest is empty; otherwise both are kept as read. |
| IamPolicy.HeaderSplitRoundTrip | iam/policy_enforcement.py:312-316 | Splitting `scheme + " " + token` gives back exactly that scheme and that token. |
| IamPolicy.LastUserTurn | iam/policy_enforcement.py:182-193 | The index found is a user turn with no later user turn, and None means there is no user turn at all. |
| IamPolicy.ExtractUserMessage | iam/policy_enforcement.py:182-193 | The loop returns the concatenated texts of the parts of the last user turn that has parts. |
| IamPolicy.CheckToolRule | iam/policy_enforcement.py:235-275 | The verdict, and the argument dict after the call, are those of the rule-check specification: allowed agents, task length, requires-auth with injection, then max results, with the first violation or exception winning. |
| IamPolicy.CheckToolRuleOnlyInjectsAuthKeys | iam/policy_enforcement.py:262-267 | A rule check changes the tool arguments only by adding missing `auth_token`, `auth_scheme` and `user_email` keys; existing keys keep their values. |
| IamPolicy.EarlyViolationLeavesArgs | iam/policy_enforcement.py:242-252 | When the allowed-agents or task-length check fails or raises, the arguments are unchanged. |
| IamPolicy.AllowedAgentsFirst | iam/policy_enforcement.py:242-246 | An allowed-agents violation is reported before any later check runs. |
| IamPolicy.AllowedAgentsViolationIff | iam/policy_enforcement.py:242-246 | With a non-empty allow list, the target is `agent_name`, else `agent`. The call is refused, naming the target, exactly when the target is truthy and not in the list. |
| IamPolicy.TaskLengthViolationIff | iam/policy_enforcement.py:248-252 | With an int bound, a string task is a violation exactly when its length exceeds the bound, so equal length passes. |
| IamPolicy.AuthDeniedIff | iam/policy_enforcement.py:254-260 | Once the earlier checks pass and requires-auth is on, the call is refused for authentication exactly when neither the argument token nor the context token is truthy. |
| IamPolicy.MaxResultsViolationIff | iam/policy_enforcement.py:269-273 | Once the earlier checks pass, the call is refused exactly when both `max_results` and `limit` are ints and `limit` is strictly greater. |
| IamPolicy.EmptyArgTokenIsKept | iam/policy_enforcement.py:256-267 | An empty `auth_token` argument passes on the context token, yet the tool still receives the empty token, because injection only fills missing keys. |
| IamPolicy.UnruledCallsAllowed | iam/policy_enforcement.py:121-133 | A disabled policy, an empty tool-rule map or a tool without a rule allows the call and leaves the arguments unchanged. |
| IamPolicy.BlockedIffViolation | iam/policy_enforcement.py:135-152 | For a tool with a non-empty rule under an enabled policy, the callback blocks with `{"error": "Tool call blocked: " + v}` exactly when the rule check reports violation v. It raises exactly when the check raises, and it leaves the arguments as the check does. |
| IamPolicy.PolicyPlugin.BeforeToolCallback | iam/policy_enforcement.py:113-152 | The callback's answer, and the tool arguments after it, are the tool-call decision for the stored policy and session state. |
| IamPolicy.PolicyPlugin.FetchPolicy | iam/policy_enforcement.py:51-63 | A fetched policy is stored. A failed fetch stores `{}`, which is disabled. |
| IamPolicy.PolicyPlugin.constructor | iam/policy_enforcement.py:26-46 | The plugin keeps its agent id and starts with the fetched policy, or `{}`. |
| DeliveryPolicy.FailedFetchAllowsAll | agents/delivery_agent/policy_enforcement_plugin.py:104-105 | With the failed-fetch default `{"policies": {}}`, every tool call is allowed. |
| DeliveryPolicy.BlockedOnlyWhenRuled | agents/delivery_agent/policy_enforcement_plugin.py:104-133 | A blocked call means tool validation is present and enabled, the tool name is a key of its `rules`, and that rule's check reported the violation. |
| DeliveryPolicy.LegacyAgentIff | agents/delivery_agent/policy_enforcement_plugin.py:172-175 | When the key is present, only `agent_name` is read. The call is refused exactly when that name is non-empty and not in the list, so an empty list refuses every named agent. |
| DeliveryPolicy.LegacyTaskLengthIff | agents/delivery_agent/policy_enforcement_plugin.py:178-181 | A string task violates exactly when its length exceeds `max_task_length`. |
| DeliveryPolicy.LegacyAuthIff | agents/delivery_agent/policy_enforcement_plugin.py:184-185 | Once the earlier checks pass, the call is refused for authentication exactly when `requires_auth` is truthy and the argument `auth_token` is falsy. |
| DeliveryPolicy.LegacyPassesIffAllStepsPass | agents/delivery_agent/policy_enforcement_plugin.py:169-193 | A rule passes exactly when every step passes; the steps run in a fixed order and the first violation is returned. |
| DeliveryPolicy.LegacyMissingLimitBlocked | agents/delivery_agent/policy_enforcement_plugin.py:188-191 | A call without `limit` is blocked whenever `max_results` is below 9999. |
| DeliveryPolicy.MissingLimitDiffers | agents/delivery_agent/policy_enforcement_plugin.py:188-191 | On a call without `limit`, the older plugin blocks where the IAM plugin allows. |
| DeliveryPolicy.StringFalseAuthDiffers | agents/delivery_agent/policy_enforcement_plugin.py:184-185 | `requires_auth: "false"` demands a token in the older plugin but not in the IAM plugin. |
| DeliveryPolicy.EmptyAllowListDiffers | agents/delivery_agent/policy_enforcement_plugin.py:172-175 | An empty allow list refuses a named agent in the older plugin and lets it through in the IAM plugin. |
| DeliveryPolicy.UserMessageDiffers | agents/delivery_agent/policy_enforcement_plugin.py:138-149 | A trailing user turn without parts yields "" in the older plugin, while the IAM plugin reads the earlier user turn. |
| DeliveryPolicy.LegacyExtractUserMessage | agents/delivery_agent/policy_enforcement_plugin.py:138-149 | The loop returns the concatenated non-None texts of the last user turn. |
| DeliveryPolicy.LegacyPlugin.FetchPolicies | agents/delivery_agent/policy_enforcement_plugin.py:38-47 | A fetched document is stored. A failed fetch stores `{"policies": {}}`. |
| DeliveryPolicy.LegacyPlugin.constructor | agents/delivery_agent/policy_enforcement_plugin.py:21-36 | The plugin keeps its agent id and starts with the fetched document, or the failure default. |
| DeliveryPolicy.LegacyPlugin.BeforeToolCallback | agents/delivery_agent/policy_enforcement_plugin.py:96-136 | The callback's answer is the legacy tool-call decision. The tool arguments are passed by value and never modified. |
| IamStore.IAMDatabase.constructor | frontend/database.py:11-21 | A new database holds the connected keyspace after default seeding, and `seeded` is false exactly when a Redis command raised during seeding, the case in which Python's constructor raises. |
| IamStore.IAMDatabase.InitDefaultData | frontend/database.py:23-181 | The new keyspace and the success flag are those of the seeding specification. |
| IamStore.InitIdempotent | frontend/database.py:26-27 | Seeding a keyspace that has been seeded changes nothing. |
| IamStore.IAMDatabase.StoreRecords | frontend/database.py:73-76 | The loop stores each default record in turn, stopping at the first Redis error. |
| IamStore.SeedStoresRecords | frontend/database.py:73-76 | After successful seeding, every record's key is present. |
| IamStore.SeedKeepsKeys | frontend/database.py:73-181 | Seeding never removes a key. |
| IamStore.SeedPrefixFails | frontend/database.py:73-76 | Once a record fails, the rest are not written. |
| IamStore.IAMDatabase.GetAllAgents | frontend/database.py:184-192 | Every indexed agent id is visited exactly once, in an unspecified order, and the result is the non-empty hashes in that order. |
| IamStore.IAMDatabase.GetAgent | frontend/database.py:194-197 | The result is the agent's hash, or None when that hash is missing or empty. A wrongly typed key raises. |
| IamStore.IAMDatabase.UpdateAgent | frontend/database.py:199-204 | An existing agent's hash is merged with the new fields; a missing one gives False. |
| IamStore.UpdateMissingChangesNothing | frontend/database.py:199-204 | Updating an absent agent, ruleset or policy returns False and changes nothing. |
| IamStore.IAMDatabase.CreateAgent | frontend/database.py:206-214 | The result, keyspace and stamped data are those of the create specification for agents. |
| IamStore.CreateWithoutIdChangesNothing | frontend/database.py:206-214 | A create without a truthy id returns False and changes neither the keyspace nor the data. |
| IamStore.CreateStoresAndIndexes | frontend/database.py:252-268 | A successful create merges the encoded record into its hash, adds the id to the `*:all` set, and stamps `created_at`. |
| IamStore.IAMDatabase.GetAllRulesets | frontend/database.py:217-233 | Every indexed ruleset is visited once, in an unspecified order, and decoded. |
| IamStore.IAMDatabase.GetRuleset | frontend/database.py:235-250 | The result is the decoded ruleset (JSON `rules`, boolean `enabled`), or None. |
| IamStore.IAMDatabase.CreateRuleset | frontend/database.py:252-268 | The result, keyspace and encoded data are those of the create specification for rulesets. |
| IamStore.RulesetRoundTrip | frontend/database.py:235-268 | A ruleset created with a dict `rules` and a bool `enabled` reads back with the same `rules` and `enabled`, when `json.loads` reads back what `json.dumps` wrote for those rules. |
| IamStore.LowerTrueFalse | frontend/database.py:264 | `str(True).lower()` is "true" and `str(False).lower()` is "false", so only a stored True reads back as True. |
| IamStore.IAMDatabase.UpdateRuleset | frontend/database.py:270-284 | The result, keyspace and encoded data are those of the update specification for rulesets. |
| IamStore.IAMDatabase.DeleteRuleset | frontend/database.py:286-293 | The result and keyspace are those of the delete specification. |
| IamStore.DeleteRemovesBoth | frontend/database.py:286-293 | Delete returns False exactly when the ruleset is absent. On success it removes the hash and the set membership and leaves every other key unchanged. |
| IamStore.IAMDatabase.GetAllPolicies | frontend/database.py:296-313 | Every indexed policy is visited once, in an unspecified order, and decoded. |
| IamStore.IAMDatabase.GetPolicy | frontend/database.py:315-331 | The result is the decoded policy, or None. |
| IamStore.PolicyListFieldDecoding | frontend/database.py:322-327 | A list field that does not parse reads back as `[]`, and one that parses reads back as its parsed value. |
| IamStore.DecodeListFieldsAt | frontend/database.py:322-327 | Each list field is decoded on its own. |
| IamStore.DecodeListFieldsKeeps | frontend/database.py:322-327 | Decoding leaves the other fields alone. |
| IamStore.EncodeListFieldsKeeps | frontend/database.py:404-407 | Encoding the list fields leaves the other fields alone. |
| IamStore.IAMDatabase.ParsePolicy | frontend/database.py:348-356 | The loop decodes the three list fields and `enabled` as the policy decoder does. |
| IamStore.IAMDatabase.GetPolicyByAgent | frontend/database.py:333-377 | Only indexed policies are visited. None means every indexed policy was visited and none belongs to the agent. Otherwise the result is the first matching policy, enriched; a Redis or parse error raises. |
| IamStore.FindPolicyCases | frontend/database.py:336-346 | When nothing raises, the search gives None exactly when no visited hash matches the agent; a found hash is one of the visited hashes and matches. |
| IamStore.IAMDatabase.Enrich | frontend/database.py:349-377 | The result is the parsed policy with `prompt_validation_rules` and `tool_validation_rules` built from its enabled rulesets. |
| IamStore.IAMDatabase.CollectPromptRules | frontend/database.py:359-368 | The loop returns the prompt rules of the listed rulesets. |
| IamStore.PromptRulesAppend | frontend/database.py:359-368 | Prompt rules of concatenated id lists are the concatenation, in ruleset order. |
| IamStore.PromptPrefixFails | frontend/database.py:359-368 | A ruleset read that raises makes the whole enrichment raise. |
| IamStore.NotEnabledIsSkipped | frontend/database.py:362-375 | A missing or disabled ruleset contributes neither prompt nor tool rules. |
| IamStore.MissingEnabledIsSkipped | frontend/database.py:362-375 | A ruleset hash without an `enabled` field is skipped. |
| IamStore.IAMDatabase.CollectToolRules | frontend/database.py:370-375 | The loop returns the tool-rule map of the listed rulesets. |
| IamStore.ToolRulesLastWins | frontend/database.py:370-375 | A later enabled ruleset naming a tool overrides the earlier rule for that tool. |
| IamStore.ToolRulesFromEnabled | frontend/database.py:370-375 | Every tool in the tool-rule map is named by one of the listed rulesets. |
| IamStore.ToolPrefixFails | frontend/database.py:370-375 | A ruleset read that raises makes the whole tool-rule build raise. |
| IamStore.IAMDatabase.UpdatePolicy | frontend/database.py:379-394 | The result, keyspace and encoded data are those of the update specification for policies. |
| IamStore.IAMDatabase.CreatePolicy | frontend/database.py:396-413 | The result, keyspace and encoded data are those of the create specification for policies. |
| IamStore.IAMDatabase.EncodePolicyFields | frontend/database.py:404-409 | The loop JSON-encodes the list-valued list fields and lower-cases `enabled`. |
| IamStore.IAMDatabase.AddLog | frontend/database.py:416-427 | The result, keyspace and stamped entry are those of the add-log specification. |
| IamStore.AddLogCapped | frontend/database.py:416-427 | After `add_log`, the list is newest first, 1 to 10000 long, starts with the new entry followed by the old list's head, and loses nothing while the old list was under the cap. |
| IamStore.IAMDatabase.GetLogs | frontend/database.py:429-443 | The result is that of the get-logs specification. |
| IamStore.GetLogsBounded | frontend/database.py:429-443 | For `limit` ≥ 1, the result is the filtered `limit` newest entries, in list order, so newest first; the final `[:limit]` never cuts. At most `limit` come back, and an entry comes back exactly when it parses from one of the `limit` newest and passes the agent filter. |
| IamStore.FilterLogsExact | frontend/database.py:435-441 | An entry is kept exactly when it parses from an input entry and matches the agent. |
| IamStore.FilterLogsAppend | frontend/database.py:435-441 | Filtering commutes with concatenation, so the kept entries keep the list's order. |
| IamStore.GetLogsZeroIsEmpty | frontend/database.py:432-443 | `get_logs(0)` is empty even though LRANGE 0 -1 reads the whole list. |
| IamStore.SliceTo | frontend/database.py:443 | Python's `xs[:k]`, including a negative k that counts from the end. |
| IamStore.IAMDatabase.ClearLogs | frontend/database.py:445-448 | The log key is deleted and True is returned. |
| IamStore.ClearThenEmpty | frontend/database.py:445-448 | After clearing, there are no logs to read and the count is zero. |
| IamStore.IAMDatabase.GetStats | frontend/database.py:450-457 | The statistics are the sizes of the three index sets and the length of the log list; a wrongly typed key raises. |
| KeyValue.HSetThenHGetAll | frontend/database.py:203 | HSET raises exactly for an empty mapping or a wrongly typed key. Otherwise it merges the mapping into the hash and touches no other key. |
| KeyValue.SAddThenSMembers | frontend/database.py:213 | SADD adds exactly the member. |
| KeyValue.SRemThenSMembers | frontend/database.py:292 | SREM removes exactly the member, and the key disappears when the set becomes empty. |
| KeyValue.LRangeFromHead | frontend/database.py:432 | `LRANGE 0 n-1` is the first n items, and `LRANGE 0 -1` is the whole list. |
| KeyValue.PushThenTrimCapped | frontend/database.py:422-425 | LPUSH followed by `LTRIM 0 cap-1` gives a list of 1 to cap items: the new head followed by a prefix of the old list. |
| KeyValue.Encode | frontend/database.py:203 | Only str, int and float values can be written to Redis, and a string is written unchanged. |
| KeyValue.EncodeAll | frontend/database.py:203 | A mapping can be written exactly when every value can, and it keeps its keys. |
| ChatClient.NormalizeTenants | client/app.py:214-219 | A string gives a one-element list, and anything other than a string or list gives `[]`. |
| ChatClient.TenantsFromScalars | client/app.py:217-218 | A list gives at most as many tenants as it has items. A string is a tenant exactly when it is the `str()` of some str, int or float item. |
| ChatClient.ScalarTenantsAppend | client/app.py:217-218 | The tenants of two lists joined are the first list's tenants followed by the second's, so items keep their order. |
| ChatClient.ScalarTenantsOne | client/app.py:217-218 | A single item gives its `str()` when it is a str, int or float, and nothing otherwise. |
| ChatClient.MixedTenantsStringified | client/app.py:214-219 | The list `[1, "a"]` gives the tenants `["1", "a"]`. |
| ChatClient.StringTenantsKept | client/app.py:217-218 | A list of strings is kept as it is, in order. |
| ChatClient.CombineParts | client/app.py:177-191 | The loop returns the combined, stripped text of the message parts. |
| ChatClient.SingleTextPart | client/app.py:177-191 | A single text part gives its stripped text. |
| ChatClient.ExtractReply | client/app.py:194-211 | The loop returns the first non-empty candidate text, or "". |
| ChatClient.Candidates | client/app.py:198-205 | The result itself is the first candidate, and `latest_output_message`, when it is a dict, is the second. The rest are the dicts of `messages` when it is a list, and nothing otherwise. |
| ChatClient.DictsOfExact | client/app.py:203-205 | A value is among the later candidates exactly when it is a dict item of `messages`. |
| ChatClient.DictsOfAppend | client/app.py:203-205 | Keeping the dicts commutes with concatenation, so they keep the order of `messages`. |
| ChatClient.FirstOf | client/app.py:207-211 | The loop returns the first candidate text that is non-empty. |
| ChatClient.FirstNonEmptyIsFirst | client/app.py:207-211 | A non-empty reply is the text of some candidate, and every earlier candidate gave "". |
| ChatClient.FirstNonEmptyEmptyIff | client/app.py:207-211 | The reply is "" exactly when every candidate gave "". |
| ChatClient.ReplyPrefersResult | client/app.py:198-211 | When the result's own parts give text, that text is the reply. |
| ChatClient.AuthSchemeCases | client/app.py:317-318 | An empty token type means "Bearer". Any case of "bearer" becomes "Bearer", and any other type is used stripped. |
| ChatClient.Headers | client/app.py:316-322 | There are exactly two headers, and `X-User-Email` is the session user's email. |
| ChatClient.BearerHeaderReachesPlugin | client/app.py:317-321 | A Bearer header built here is split by the IAM plugin back into scheme "Bearer" and the session's token. |
| ChatClient.SessionStore.constructor | client/app.py:79 | The session map starts empty. |
| ChatClient.SessionStore.SetSession | client/app.py:93-95 | The map gains or replaces exactly that entry. |
| ChatClient.SessionStore.GetSession | client/app.py:98-100 | The result is Some exactly when the id is present, and then it is the stored data. |
| ChatClient.SessionStore.DeleteSession | client/app.py:103-105 | Exactly that id is removed, and deleting an absent id changes nothing. |
| ChatClient.SessionStore.ExtractSession | client/app.py:108-112 | The result is the cookie's id and that id's session, if there is one. |
| ChatClient.SessionStore.Login | client/app.py:278-294 | The response and the new session follow the login specification. A session is created exactly on success, with the defaulted token type. |
| ChatClient.LoginOutcomes | client/app.py:281-290 | A token reply without a truthy `access_token` gives a 502. A session is made exactly when login succeeds. It holds the access token, a token type that defaults to "bearer", and a user with a non-empty email. |
| ChatClient.SessionStore.Logout | client/app.py:297-302 | The cookie's session is removed when there is a cookie. |
| ChatClient.SessionStore.SessionInfo | client/app.py:305-311 | A request without a session gets 401; otherwise the reply carries the session's token, type and user. |
| ChatClient.SessionStore.SendMessage | client/app.py:350-368 | The answer is that of the send-message specification. |
| ChatClient.SendMessageGuards | client/app.py:355-360 | Without a session the answer is 401. A whitespace-only message gets 400, and any other message is sent. |
| ChatClient.ReplyPrefersTopLevel | client/app.py:362-366 | For every non-empty text t: when a truthy top-level `result` gives t, the reply is t; when there is no truthy top-level `result` and `root.result` gives t, the reply is t. |
| ChatClient.ReplyNeverEmpty | client/app.py:365-366 | A successful reply is never empty, because the fallback text replaces an empty one. |
| ChatClient.ReplyFrom | client/app.py:362-368 | The reply built from the orchestrator's answer is that of the send-message specification, crashes included. |
| PyValue.Strip | client/app.py:355 | `str.strip()`: the result has no leading or trailing whitespace and is empty exactly when the input is all whitespace. |
| JwtUsers.UsersWellFormed | jwt-server/app/users.py:11-27 | Each stored user is keyed by its own email and has at least one tenant. |
| JwtUsers.GetUser | jwt-server/app/users.py:29-32 | A user is found exactly when the email is in the store, and it carries that email. |
| JwtUsers.NormalizeTenants | jwt-server/app/users.py:34-39 | A string gives `[s]`, and anything other than a string or list gives `[]`. |
| JwtUsers.StringItemsExact | jwt-server/app/users.py:37-38 | A list keeps exactly its string items, in order. |
| JwtUsers.TenantClaim | jwt-server/app/users.py:50 | The token's tenant claim is the stored tenant, a string or a list of strings. |
| JwtUsers.LoginOutcomes | jwt-server/app/users.py:42-51 | Login succeeds exactly for a known user with the right password; every failure is a 401. On success the token is issued for the user's email and stored tenant with type "bearer". |
| JwtUsers.ReadUsersMeAccepts | jwt-server/app/users.py:55-78 | `/users/me` succeeds exactly when the subject is a string naming a known user and the token's tenants and the stored tenants form equal, non-empty sets. It then answers with that user's email and tenant. |
| JwtUsers.TenantMatchIgnoresOrder | jwt-server/app/users.py:73 | Two tenant claims with the same set of tenants get the same answer. |
| JwtUsers.SwappedTenantsMatch | jwt-server/app/users.py:73 | `["logistics", "customer-service"]` matches its reversal. |
| JwtUsers.SetOfEmpty | jwt-server/app/users.py:73 | An empty tenant set comes only from an empty list. |
| JwtUsers.LoginThenReadUsersMe | jwt-server/app/users.py:42-78 | A token from a successful login is accepted by `/users/me` and returns that user, when the decoded token carries the user's `sub` and `tenant` claims, whatever other claims such as `exp` it has. |
| JwsCard.CardMaterial | jws-server/jws.py:27-32 | The card without `signatures`, and otherwise equal to it. |
| JwsCard.HashIgnoresSignatures | jws-server/jws.py:27-32 | The card hash does not depend on `signatures`. |
| JwsCard.HashOf | jws-server/jws.py:48-53 | A dict `card` is hashed. Otherwise a string `card_hash` is taken as given, and else there is no hash. |
| JwsCard.VersionOf | jws-server/jws.py:43 | `version_id` is the given int, or else 1. |
| JwsCard.TtlOf | jws-server/jws.py:45 | The TTL is the given positive int, or else 600, and always positive. |
| JwsCard.SignChecks | jws-server/jws.py:55-62 | A missing or blank `sub` is refused with 422 whatever the card. With a valid `sub`, signing succeeds exactly when a non-empty card hash is found and `now + ttl` is within `datetime`'s range (up to 9999-12-31T23:59:59Z); past that range it crashes with OverflowError. Every refusal is a 422. |
| JwsCard.SignedPayload | jws-server/jws.py:60-86 | A signed payload carries the given `sub`, the card hash, `iat` = now and `exp = iat + ttl` within `datetime`'s range, and the defaulted version. The etag is the given one, or else `W/"<version>-<short>"`. |
| JwsCard.ClaimsCarryHash | jws-server/jws.py:69-79 | The claims put into the token carry the card hash. |
| JwsCard.VerifyNeedsToken | jws-server/jws.py:92-94 | A missing or empty `jws` is refused with 422. |
| JwsCard.VerifyOutcomes | jws-server/jws.py:100-126 | For a decodable token, no provided hash gives valid and unverified. A provided hash against a missing claim hash, or against a different one, gives 400. A reply is always valid with the token's claims, and `hash_verified` is true exactly when the provided hash equals the claim hash. |
| JwsCard.VerifyMatchingCard | jws-server/jws.py:103-124 | Verifying with the card whose hash the token carries gives `hash_verified = true`. |
| JwsCard.SignThenVerify | jws-server/jws.py:48-124 | Signing with card c and verifying with c, with or without `signatures`, gives `hash_verified = true`, when the signed token is non-empty and decodes to its claims. |
| SeedData.LineResults | agentDB/seed_agent_data.py:33-47 | Each line gives exactly one result. |
| SeedData.LineResultsAt | agentDB/seed_agent_data.py:33-47 | The i-th line's result is the parse of that line. |
| SeedData.LineResultsConcat | agentDB/seed_agent_data.py:33-47 | Parsing distributes over concatenated line lists. |
| SeedData.CollectConcat | agentDB/seed_agent_data.py:31-48 | Collecting distributes over concatenation, and a fault in either half is a fault of the whole. |
| SeedData.ParseConcat | agentDB/seed_agent_data.py:31-48 | The commands of concatenated files are the commands of each, in order. |
| SeedData.ParseLineCases | agentDB/seed_agent_data.py:34-46 | Blank and "#" lines give no command. A line of fewer than 2 tokens raises. Otherwise the command is upper-cased, the key is the second token and the args are the rest. |
| SeedData.ParseSeedCommands | agentDB/seed_agent_data.py:31-48 | The loop returns the commands of the parse specification, in file order. |
| SeedData.PairUpLastWins | agentDB/seed_agent_data.py:66-69 | The HSET mapping has exactly the fields at even positions, and each field's value is the one after its last occurrence. |
| SeedData.QueueOnePerCommand | agentDB/seed_agent_data.py:65-78 | Queueing succeeds exactly when every command is a valid HSET or SET, giving one operation per command, in order. |
| SeedData.QueuePrefixFails | agentDB/seed_agent_data.py:65-78 | A command that raises aborts the whole queue. |
| SeedData.QueueCommands | agentDB/seed_agent_data.py:65-78 | The loop returns the queue of the queue specification. |
| SeedData.RedisClient.constructor | agentDB/seed_agent_data.py:52 | The client starts on the given keyspace. |
| SeedData.RedisClient.Execute | agentDB/seed_agent_data.py:80-81 | The pipeline's keyspace and success flag are those of the execute specification. |
| SeedData.RedisClient.SeedAgentRedis | agentDB/seed_agent_data.py:51-82 | The outcome and keyspace are those of the seed specification. |
| SeedData.SeedOutcomes | agentDB/seed_agent_data.py:51-82 | The run stops as already seeded exactly when the version key exists. A seeded keyspace, or a parse or queue error, changes nothing, and such an error is the only reason for refusal. A run that reaches execution writes the version key, and a successful run reports one operation per parsed command. |

## Left out

- LLM prompt screening (`before_model_callback`, `_inspect_with_llm`, `_resolve_model`, `_create_llm_response` in both plugins): it calls a foreign, nondeterministic model.
- Network I/O is left out: fetching policies, `_send_log`, the JWT server calls, the orchestrator POST, and the agent-card calls. A fetched policy or answer is an input value, and logging is a no-op.
- IamStore.IAMDatabase.constructor: a Dafny constructor cannot raise, so a seeding error, which makes Python's constructor raise, is reported in the `seeded` field over the partly seeded keyspace.
- The session lock and any concurrency are left out. The session map is modelled sequentially.
- Cookies, redirects and the static pages of `client/app.py` are left out, because they only serve files and set browser state.
- Reading the seed file from disk is left out. The seed model starts from its list of lines.
- The following library primitives are uninterpreted parameters: JSON encoding and decoding, SHA-256 over canonical JSON, JWS and JWT encoding and decoding, `shlex.split`, bcrypt password checks, `datetime`, `uuid` and `secrets`. Each round-trip lemma requires the codec to read back the one value it wrote: the stored rules, the logged-in user's `sub` and `tenant` claims (other claims such as `exp` may come with them), the signed payload.
- Python dicts are Dafny maps, so key insertion order is not modelled. JSON text of a dict therefore depends only on its contents.
- `str()` of a list or dict, and of a float without its source text, is a placeholder string. A Redis key built from such an id is not exact.
- Iteration over a Redis set (`smembers`) follows an unspecified order, which the methods expose as a ghost `order`.
- IamStore.IAMDatabase.GetPolicyByAgent: iterating a dict-valued `*_rulesets` field, which in Python walks its keys, is modelled as raising.
- Lower and Upper cover ASCII. Upper also maps U+017F to "S". Other Unicode case mappings are not modelled.
- JwsCard.VerifyOutcomes: the structured error detail of a bad token is reduced to its error code.
- The `_models` and Gemini client fields of the plugins are left out, because they are used only by LLM screening.
- `frontend/app.py`, the orchestrator and agent runtimes (`__main__.py`, `agent.py`, `agent_executor.py`) and the JWT server's `auth.py`, `schemas.py` and `main.py` are not part of this model. They are server glue and library wrappers.
