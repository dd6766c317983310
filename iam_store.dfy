/** The policy store of the IAM front end (frontend/database.py): agents,
    rulesets and policies kept as Redis hashes with one `<kind>:all` index
    set per kind, and a newest-first log list capped at 10000 entries. The
    Redis client is the `store` field of `IAMDatabase`; JSON encoding and
    the clock are parameters. */
module IamStore {
  import opened PyValue
  import opened KeyValue

  /** JSON (de)serialisation as the store uses it: `json.dumps` never fails
      on these values, `json.loads` may (`None`). */
  datatype Json = Json(dumps: Value -> string, loads: string -> Option<Value>)

  /** The three kinds of record, each a hash `<prefix>:<id>` indexed by the set `<prefix>:all`. */
  datatype Kind = Agent | Ruleset | Policy

  function Prefix(k: Kind): string {
    match k
    case Agent => "agents"
    case Ruleset => "rulesets"
    case Policy => "policies"
  }

  function IdField(k: Kind): string {
    match k
    case Agent => "agent_id"
    case Ruleset => "ruleset_id"
    case Policy => "policy_id"
  }

  function RecordKey(k: Kind, id: string): string {
    Prefix(k) + ":" + id
  }

  function AllKey(k: Kind): string {
    Prefix(k) + ":all"
  }

  const ListFields: seq<string> := ["prompt_validation_rulesets", "tool_validation_rulesets", "response_filtering_rulesets"]
  const DefaultModel := "gemini-2.0-flash-exp"
  const LogsKey := "logs:all"
  const MaxLogs := 10000

  // ---------------------------------------------------------------------
  // Field encoding on write and decoding on read
  // ---------------------------------------------------------------------

  /** A dict `rules` is stored as its JSON text. */
  function EncodeRules(d: map<string, Value>, json: Json): map<string, Value> {
    if "rules" in d && d["rules"].VDict? then d["rules" := VStr(json.dumps(d["rules"]))] else d
  }

  /** `enabled` is stored as `str(enabled).lower()`. */
  function EncodeEnabled(d: map<string, Value>): map<string, Value> {
    if "enabled" in d then d["enabled" := VStr(Lower(ToStr(d["enabled"])))] else d
  }

  /** A list-valued rulesets field is stored as its JSON text. */
  function EncodeListField(d: map<string, Value>, field: string, json: Json): map<string, Value> {
    if field in d && d[field].VList? then d[field := VStr(json.dumps(d[field]))] else d
  }

  function EncodeListFields(d: map<string, Value>, fields: seq<string>, json: Json): map<string, Value> {
    if fields == [] then d
    else EncodeListField(EncodeListFields(d, fields[..|fields| - 1], json), fields[|fields| - 1], json)
  }

  /** What create and update do to the incoming dict after stamping it. */
  function EncodeFields(k: Kind, d: map<string, Value>, json: Json): map<string, Value> {
    match k
    case Agent => d
    case Ruleset => EncodeEnabled(EncodeRules(d, json))
    case Policy => EncodeEnabled(EncodeListFields(d, ListFields, json))
  }

  function StrFields(h: map<string, string>): (d: map<string, Value>)
    ensures d.Keys == h.Keys && forall k :: k in h ==> d[k] == VStr(h[k])
  {
    map k | k in h :: VStr(h[k])
  }

  /** A stored flag reads back as `value.lower() == "true"`. */
  function DecodeFlag(s: string): Value {
    VBool(Lower(s) == "true")
  }

  /** `rules` is parsed as JSON (kept as text when it does not parse) and `enabled` as a flag. */
  function DecodeRuleset(h: map<string, string>, json: Json): map<string, Value> {
    var d := StrFields(h);
    var d1 := if "rules" in h && json.loads(h["rules"]).Some? then d["rules" := json.loads(h["rules"]).value] else d;
    if "enabled" in h then d1["enabled" := DecodeFlag(h["enabled"])] else d1
  }

  /** A list field is parsed as JSON; text that does not parse reads as `[]`. */
  function DecodeListField(d: map<string, Value>, field: string, json: Json): map<string, Value> {
    if field !in d then d
    else if d[field].VStr? && json.loads(d[field].s).Some? then d[field := json.loads(d[field].s).value]
    else d[field := VList([])]
  }

  function DecodeListFields(d: map<string, Value>, fields: seq<string>, json: Json): map<string, Value> {
    if fields == [] then d
    else DecodeListField(DecodeListFields(d, fields[..|fields| - 1], json), fields[|fields| - 1], json)
  }

  function DecodePolicy(h: map<string, string>, json: Json): map<string, Value> {
    var d := DecodeListFields(StrFields(h), ListFields, json);
    if "enabled" in h then d["enabled" := DecodeFlag(h["enabled"])] else d
  }

  function Decode(k: Kind, h: map<string, string>, json: Json): map<string, Value> {
    match k
    case Agent => StrFields(h)
    case Ruleset => DecodeRuleset(h, json)
    case Policy => DecodePolicy(h, json)
  }

  /** `hset(key, mapping=d)`: every value must encode. */
  function HSetValues(st: Store, key: string, d: map<string, Value>): Result<Store> {
    match EncodeAll(d)
    case None => Fault
    case Some(m) => HSet(st, key, m)
  }

  // ---------------------------------------------------------------------
  // Create, update and delete as functions of the store
  // ---------------------------------------------------------------------

  /** `create_<kind>`: the outcome, the new store and the caller's dict after
      the call. A falsy id returns False and touches nothing; otherwise the
      dict is stamped with `created_at` and encoded, stored, and the id is
      added to the index set. An exception leaves what was written before it. */
  function CreateSpec(k: Kind, st: Store, data: map<string, Value>, now: string, json: Json)
    : (Result<bool>, Store, map<string, Value>)
  {
    var id := Get(data, IdField(k), VNone);
    if !Truthy(id) then (Ok(false), st, data)
    else
      var d := EncodeFields(k, data["created_at" := VStr(now)], json);
      match HSetValues(st, RecordKey(k, ToStr(id)), d)
      case Fault => (Fault, st, d)
      case Ok(st1) =>
        match Encode(id)
        case None => (Fault, st1, d)
        case Some(member) =>
          match SAdd(st1, AllKey(k), member)
          case Fault => (Fault, st1, d)
          case Ok(st2) => (Ok(true), st2, d)
  }

  /** `update_<kind>`: False when the record key does not exist; otherwise
      the dict (stamped with `updated_at` and encoded, except for agents) is
      merged into the record. */
  function UpdateSpec(k: Kind, st: Store, id: string, data: map<string, Value>, now: string, json: Json)
    : (Result<bool>, Store, map<string, Value>)
  {
    if !Exists(st, RecordKey(k, id)) then (Ok(false), st, data)
    else
      var d := if k == Agent then data else EncodeFields(k, data["updated_at" := VStr(now)], json);
      match HSetValues(st, RecordKey(k, id), d)
      case Fault => (Fault, st, d)
      case Ok(st1) => (Ok(true), st1, d)
  }

  /** `delete_ruleset`: False when absent; otherwise the hash and the index entry go. */
  function DeleteRulesetSpec(st: Store, id: string): (Result<bool>, Store) {
    if !Exists(st, RecordKey(Ruleset, id)) then (Ok(false), st)
    else
      var st1 := Delete(st, RecordKey(Ruleset, id));
      match SRem(st1, AllKey(Ruleset), id)
      case Fault => (Fault, st1)
      case Ok(st2) => (Ok(true), st2)
  }

  // ---------------------------------------------------------------------
  // Reads as functions of the store
  // ---------------------------------------------------------------------

  /** `get_ruleset`: `None` for a missing (empty) hash. */
  function GetRulesetSpec(st: Store, id: string, json: Json): Result<Option<map<string, Value>>> {
    match HGetAll(st, RecordKey(Ruleset, id))
    case Fault => Fault
    case Ok(h) => Ok(if h == map[] then None else Some(DecodeRuleset(h, json)))
  }

  /** `get_policy`: `None` for a missing (empty) hash. */
  function GetPolicySpec(st: Store, id: string, json: Json): Result<Option<map<string, Value>>> {
    match HGetAll(st, RecordKey(Policy, id))
    case Fault => Fault
    case Ok(h) => Ok(if h == map[] then None else Some(DecodePolicy(h, json)))
  }

  /** The decoded non-empty records of the ids, in the order given. */
  function AllRecords(st: Store, k: Kind, ids: seq<string>, json: Json): Result<seq<map<string, Value>>> {
    if ids == [] then Ok([])
    else match AllRecords(st, k, ids[..|ids| - 1], json)
      case Fault => Fault
      case Ok(acc) =>
        match HGetAll(st, RecordKey(k, ids[|ids| - 1]))
        case Fault => Fault
        case Ok(h) => Ok(if h == map[] then acc else acc + [Decode(k, h, json)])
  }

  predicate PolicyMatches(h: map<string, string>, agentId: string) {
    h != map[] && "agent_id" in h && h["agent_id"] == agentId
  }

  /** The first policy hash, in the given order of ids, whose `agent_id` is the agent. */
  function FindPolicy(st: Store, ids: seq<string>, agentId: string): Result<Option<map<string, string>>> {
    if ids == [] then Ok(None)
    else match FindPolicy(st, ids[..|ids| - 1], agentId)
      case Fault => Fault
      case Ok(found) =>
        if found.Some? then Ok(found)
        else match HGetAll(st, RecordKey(Policy, ids[|ids| - 1]))
          case Fault => Fault
          case Ok(h) => Ok(if PolicyMatches(h, agentId) then Some(h) else None)
  }

  /** The ruleset an id in a policy names, when it exists and its `enabled` is truthy. */
  function EnabledRuleset(st: Store, id: Value, json: Json): Result<Option<map<string, Value>>> {
    match GetRulesetSpec(st, ToStr(id), json)
    case Fault => Fault
    case Ok(rs) => Ok(if rs.Some? && Truthy(Get(rs.value, "enabled", VNone)) then rs else None)
  }

  function PromptEntry(rs: map<string, Value>): Value {
    VDict(map["system_prompt" := Get(rs, "system_prompt", VStr("")), "model" := Get(rs, "model", VStr(DefaultModel))])
  }

  /** `prompt_validation_rules`: one entry per enabled prompt ruleset, in listed order. */
  function PromptRulesOf(st: Store, ids: seq<Value>, json: Json): Result<seq<Value>> {
    if ids == [] then Ok([])
    else match PromptRulesOf(st, ids[..|ids| - 1], json)
      case Fault => Fault
      case Ok(acc) =>
        match EnabledRuleset(st, ids[|ids| - 1], json)
        case Fault => Fault
        case Ok(rs) => Ok(if rs.Some? then acc + [PromptEntry(rs.value)] else acc)
  }

  /** `tool_validation_rules`: tool name to rules, over the enabled tool
      rulesets that name a tool; a later ruleset overrides an earlier one. */
  function ToolRulesOf(st: Store, ids: seq<Value>, json: Json): Result<map<string, Value>> {
    if ids == [] then Ok(map[])
    else match ToolRulesOf(st, ids[..|ids| - 1], json)
      case Fault => Fault
      case Ok(acc) =>
        match EnabledRuleset(st, ids[|ids| - 1], json)
        case Fault => Fault
        case Ok(rs) =>
          if rs.Some? && Truthy(Get(rs.value, "tool_name", VNone)) then
            Ok(acc[ToStr(Get(rs.value, "tool_name", VNone)) := Get(rs.value, "rules", VDict(map[]))])
          else Ok(acc)
  }

  /** The policy of `get_policy_by_agent` once found: decoded, then enriched
      with its prompt and tool rules. Iterating a field that is not a list
      or a string raises. */
  function EnrichSpec(st: Store, h: map<string, string>, json: Json): Result<map<string, Value>> {
    var p := DecodePolicy(h, json);
    match Iter(Get(p, "prompt_validation_rulesets", VList([])))
    case None => Fault
    case Some(pids) =>
      match PromptRulesOf(st, pids, json)
      case Fault => Fault
      case Ok(prompts) =>
        match Iter(Get(p, "tool_validation_rulesets", VList([])))
        case None => Fault
        case Some(tids) =>
          match ToolRulesOf(st, tids, json)
          case Fault => Fault
          case Ok(tools) => Ok(p["prompt_validation_rules" := VList(prompts)]["tool_validation_rules" := VDict(tools)])
  }

  /** Whether a parsed log entry passes the agent filter; a parsed entry
      that is not a dict raises inside the `try` and is skipped. */
  predicate LogMatches(log: Value, agentId: Option<string>) {
    agentId.None? || (log.VDict? && Get(log.fields, "agent_id", VNone) == VStr(agentId.value))
  }

  /** The parsed entries that pass the filter, in list order; unparsable ones are skipped. */
  function FilterLogs(entries: seq<string>, agentId: Option<string>, json: Json): (r: seq<Value>)
    ensures |r| <= |entries|
  {
    if entries == [] then []
    else
      var acc := FilterLogs(entries[..|entries| - 1], agentId, json);
      var log := json.loads(entries[|entries| - 1]);
      if log.Some? && LogMatches(log.value, agentId) then acc + [log.value] else acc
  }

  /** Python's `xs[:k]`, where a negative `k` counts from the end. */
  function SliceTo<T>(xs: seq<T>, k: int): (r: seq<T>)
    ensures k >= 0 ==> r == xs[..if k < |xs| then k else |xs|]
    ensures k < 0 ==> r == xs[..if |xs| + k < 0 then 0 else |xs| + k]
  {
    if k >= 0 then xs[..if k < |xs| then k else |xs|] else xs[..if |xs| + k < 0 then 0 else |xs| + k]
  }

  /** `get_logs(limit, agent_id)`: LRANGE 0 (limit - 1), then filter, then `[:limit]`. */
  function GetLogsSpec(st: Store, limit: int, agentId: Option<string>, json: Json): Result<seq<Value>> {
    match LRange(st, LogsKey, 0, limit - 1)
    case Fault => Fault
    case Ok(entries) => Ok(SliceTo(FilterLogs(entries, agentId, json), limit))
  }

  /** `add_log`: the dict is stamped, pushed as JSON at the head and the list trimmed to 10000. */
  function AddLogSpec(st: Store, data: map<string, Value>, now: string, json: Json)
    : (Result<bool>, Store, map<string, Value>)
  {
    var d := data["timestamp" := VStr(now)];
    match LPush(st, LogsKey, json.dumps(VDict(d)))
    case Fault => (Fault, st, d)
    case Ok(st1) =>
      match LTrim(st1, LogsKey, 0, MaxLogs - 1)
      case Fault => (Fault, st1, d)
      case Ok(st2) => (Ok(true), st2, d)
  }

  /** `get_stats`: the three index-set sizes and the log count. */
  function StatsSpec(st: Store): Result<map<string, Value>> {
    match (SCard(st, AllKey(Agent)), SCard(st, AllKey(Ruleset)), SCard(st, AllKey(Policy)), LLen(st, LogsKey))
    case (Ok(a), Ok(r), Ok(p), Ok(l)) =>
      Ok(map["total_agents" := VInt(a), "total_rulesets" := VInt(r), "total_policies" := VInt(p), "total_logs" := VInt(l)])
    case _ => Fault
  }

  // ---------------------------------------------------------------------
  // Default data
  // ---------------------------------------------------------------------

  const OrchestratorPrompt :=
    "당신은 사용자 질문이 정책에 위반되는지 검증하는 보안 검사 AI입니다.\n\n[검증 규칙]\n"
    + "1. 위험한 시스템 명령어 실행 요청 (예: 파일 삭제, 권한 변경, 시스템 설정 변경)\n"
    + "2. 내부 시스템 구조/설정 변경 요청\n3. 관리자 권한이 필요한 작업\n\n[응답 형식]\n"
    + "- 위반인 경우: \"VIOLATION\"\n- 정상인 경우: \"PASS\"\n\n사용자 질문: {prompt}\n\n판정:"

  function AgentRecord(id: string, name: string, description: string, policyId: string, now: string): map<string, string> {
    map["agent_id" := id, "name" := name, "description" := description, "status" := "active",
        "policy_id" := policyId, "created_at" := now]
  }

  function DefaultAgents(now: string): seq<map<string, string>> {
    [AgentRecord("orchestrator", "Orchestrator", "Main orchestrator agent", "policy_orchestrator", now),
     AgentRecord("delivery_agent", "Delivery Agent", "Handles delivery operations", "policy_delivery", now),
     AgentRecord("item_agent", "Item Agent", "Manages item information", "policy_item", now),
     AgentRecord("quality_agent", "Quality Agent", "Quality assurance agent", "policy_quality", now),
     AgentRecord("vehicle_agent", "Vehicle Agent", "Vehicle management agent", "policy_vehicle", now)]
  }

  function DefaultRulesets(now: string, json: Json): seq<map<string, string>> {
    [map["ruleset_id" := "ruleset_prompt_orchestrator", "name" := "Orchestrator Prompt Validation",
         "type" := "prompt_validation", "description" := "Validates user prompts for orchestrator",
         "system_prompt" := OrchestratorPrompt, "model" := DefaultModel, "enabled" := "true", "created_at" := now],
     map["ruleset_id" := "ruleset_tool_call_remote_agent", "name" := "Call Remote Agent Validation",
         "type" := "tool_validation", "tool_name" := "call_remote_agent",
         "description" := "Validates call_remote_agent tool arguments",
         "rules" := json.dumps(VDict(map[
           "allowed_agents" := VList([VStr("Delivery Agent"), VStr("Item Agent"), VStr("Quality Agent"), VStr("Vehicle Agent")]),
           "max_task_length" := VInt(500),
           "rate_limit" := VInt(10)])),
         "enabled" := "true", "created_at" := now]]
  }

  function PolicyRecord(id: string, agentId: string, name: string, prompts: seq<Value>, tools: seq<Value>, now: string, json: Json)
    : map<string, string>
  {
    map["policy_id" := id, "agent_id" := agentId, "name" := name,
        "prompt_validation_rulesets" := json.dumps(VList(prompts)),
        "tool_validation_rulesets" := json.dumps(VList(tools)),
        "response_filtering_rulesets" := json.dumps(VList([])),
        "enabled" := "true", "created_at" := now]
  }

  function DefaultPolicies(now: string, json: Json): seq<map<string, string>> {
    [PolicyRecord("policy_orchestrator", "orchestrator", "Orchestrator Policy",
                  [VStr("ruleset_prompt_orchestrator")], [VStr("ruleset_tool_call_remote_agent")], now, json),
     PolicyRecord("policy_delivery", "delivery_agent", "Delivery Agent Policy", [], [], now, json),
     PolicyRecord("policy_item", "item_agent", "Item Agent Policy", [], [], now, json),
     PolicyRecord("policy_quality", "quality_agent", "Quality Agent Policy", [], [], now, json),
     PolicyRecord("policy_vehicle", "vehicle_agent", "Vehicle Agent Policy", [], [], now, json)]
  }

  /** Stores each record as a hash and indexes its id, in order; the flag
      is false when a command raised, with the store as it was then. */
  function SeedRecords(st: Store, k: Kind, records: seq<map<string, string>>): (bool, Store) {
    if records == [] then (true, st)
    else
      var (ok, st1) := SeedRecords(st, k, records[..|records| - 1]);
      if !ok then (false, st1) else SeedStep(st1, k, records[|records| - 1])
  }

  /** One record: `hset` of its fields, then `sadd` of its id. */
  function SeedStep(st: Store, k: Kind, rec: map<string, string>): (bool, Store) {
    if IdField(k) !in rec then (false, st)
    else match HSet(st, RecordKey(k, rec[IdField(k)]), rec)
      case Fault => (false, st)
      case Ok(st1) =>
        match SAdd(st1, AllKey(k), rec[IdField(k)])
        case Fault => (false, st1)
        case Ok(st2) => (true, st2)
  }

  /** `_init_default_data`: nothing when `agents:orchestrator` exists,
      otherwise the default agents, rulesets and policies. */
  function InitSpec(st: Store, now: string, json: Json): (bool, Store) {
    if Exists(st, RecordKey(Agent, "orchestrator")) then (true, st)
    else
      var (ok1, st1) := SeedRecords(st, Agent, DefaultAgents(now));
      if !ok1 then (false, st1)
      else
        var (ok2, st2) := SeedRecords(st1, Ruleset, DefaultRulesets(now, json));
        if !ok2 then (false, st2)
        else SeedRecords(st2, Policy, DefaultPolicies(now, json))
  }

  // ---------------------------------------------------------------------
  // Properties of the store operations
  // ---------------------------------------------------------------------

  /** Seeding only adds keys. */
  lemma {:induction false} SeedKeepsKeys(st: Store, k: Kind, records: seq<map<string, string>>)
    ensures st.Keys <= SeedRecords(st, k, records).1.Keys
  {
    if records != [] {
      SeedKeepsKeys(st, k, records[..|records| - 1]);
    }
  }

  /** A successful seeding stores every record's hash and indexes every id. */
  lemma {:induction false} SeedStoresRecords(st: Store, k: Kind, records: seq<map<string, string>>, i: nat)
    requires i < |records| && IdField(k) in records[i]
    requires SeedRecords(st, k, records).0
    ensures RecordKey(k, records[i][IdField(k)]) in SeedRecords(st, k, records).1
  {
    var n := |records| - 1;
    var (ok1, st1) := SeedRecords(st, k, records[..n]);
    var rec := records[n];
    var st2 := HSet(st1, RecordKey(k, rec[IdField(k)]), rec).value;
    if i < n {
      SeedStoresRecords(st, k, records[..n], i);
      assert records[..n][i] == records[i];
    }
    assert RecordKey(k, records[i][IdField(k)]) in st2;
  }

  /** `_init_default_data` is idempotent: once it succeeded, running it
      again changes nothing. */
  lemma InitIdempotent(st: Store, now: string, json: Json)
    requires InitSpec(st, now, json).0
    ensures InitSpec(InitSpec(st, now, json).1, now, json) == InitSpec(st, now, json)
  {
    var key := RecordKey(Agent, "orchestrator");
    if !Exists(st, key) {
      var agents := DefaultAgents(now);
      var (ok1, st1) := SeedRecords(st, Agent, agents);
      assert agents[0][IdField(Agent)] == "orchestrator";
      SeedStoresRecords(st, Agent, agents, 0);
      var (ok2, st2) := SeedRecords(st1, Ruleset, DefaultRulesets(now, json));
      SeedKeepsKeys(st1, Ruleset, DefaultRulesets(now, json));
      SeedKeepsKeys(st2, Policy, DefaultPolicies(now, json));
    }
  }

  /** Creating with a falsy id returns False and changes neither the store nor the dict. */
  lemma CreateWithoutIdChangesNothing(k: Kind, st: Store, data: map<string, Value>, now: string, json: Json)
    requires !Truthy(Get(data, IdField(k), VNone))
    ensures CreateSpec(k, st, data, now, json) == (Ok(false), st, data)
  {
  }

  /** A successful create stores the record under its key (its fields
      merged over any earlier ones) and indexes its id. */
  lemma CreateStoresAndIndexes(k: Kind, st: Store, data: map<string, Value>, now: string, json: Json)
    requires CreateSpec(k, st, data, now, json).0 == Ok(true)
    ensures var id := Get(data, IdField(k), VNone);
      var st' := CreateSpec(k, st, data, now, json).1;
      var d := CreateSpec(k, st, data, now, json).2;
      Encode(id).Some? && EncodeAll(d).Some?
      && HGetAll(st', RecordKey(k, ToStr(id))) == Ok(HGetAll(st, RecordKey(k, ToStr(id))).value + EncodeAll(d).value)
      && SMembers(st', AllKey(k)) == Ok(SMembers(st, AllKey(k)).value + {Encode(id).value})
      && "created_at" in d && d["created_at"] == VStr(now)
  {
    var id := Get(data, IdField(k), VNone);
    var d := EncodeFields(k, data["created_at" := VStr(now)], json);
    var st1 := HSetValues(st, RecordKey(k, ToStr(id)), d).value;
    assert RecordKey(k, ToStr(id)) != AllKey(k);
    assert "created_at" in d && d["created_at"] == VStr(now) by {
      if k == Policy {
        EncodeListFieldsKeeps(data["created_at" := VStr(now)], ListFields, json, "created_at");
      }
    }
  }

  /** List-field encoding and decoding touch only the three list fields. */
  lemma {:induction false} EncodeListFieldsKeeps(d: map<string, Value>, fields: seq<string>, json: Json, key: string)
    requires key !in fields
    ensures var d' := EncodeListFields(d, fields, json); (key in d' <==> key in d) && (key in d ==> d'[key] == d[key])
  {
    if fields != [] {
      EncodeListFieldsKeeps(d, fields[..|fields| - 1], json, key);
    }
  }

  /** Updating a record whose key does not exist returns False and changes nothing. */
  lemma UpdateMissingChangesNothing(k: Kind, st: Store, id: string, data: map<string, Value>, now: string, json: Json)
    requires !Exists(st, RecordKey(k, id))
    ensures UpdateSpec(k, st, id, data, now, json) == (Ok(false), st, data)
  {
  }

  /** `delete_ruleset` returns False iff the ruleset is absent; on success
      both the hash and the index entry are gone and nothing else changes. */
  lemma DeleteRemovesBoth(st: Store, id: string, other: string)
    requires other != RecordKey(Ruleset, id) && other != AllKey(Ruleset)
    ensures DeleteRulesetSpec(st, id).0 == Ok(false) <==> !Exists(st, RecordKey(Ruleset, id))
    ensures DeleteRulesetSpec(st, id).0 == Ok(true) ==>
      var st' := DeleteRulesetSpec(st, id).1;
      RecordKey(Ruleset, id) !in st' && SMembers(st', AllKey(Ruleset)).Ok? && id !in SMembers(st', AllKey(Ruleset)).value
      && (other in st' <==> other in st) && (other in st ==> st'[other] == st[other])
  {
    if Exists(st, RecordKey(Ruleset, id)) {
      var st1 := Delete(st, RecordKey(Ruleset, id));
      if SRem(st1, AllKey(Ruleset), id).Ok? {
        SRemThenSMembers(st1, AllKey(Ruleset), id);
      }
    }
  }

  lemma LowerTrueFalse()
    ensures Lower("True") == "true" && Lower("False") == "false" && Lower("true") == "true"
    ensures Lower("false") != "true"
  {
    assert Lower("True")[0] == 't';
    assert Lower("False")[0] == 'f';
    assert Lower("false")[0] == 'f';
  }

  /** Round trip: a ruleset created with a dict `rules` and a boolean
      `enabled` reads back with the same `rules` and `enabled`, given that
      `json.loads` reads back what `json.dumps` wrote for those rules. */
  lemma RulesetRoundTrip(st: Store, data: map<string, Value>, now: string, json: Json, rules: map<string, Value>, enabled: bool)
    requires json.loads(json.dumps(VDict(rules))) == Some(VDict(rules))
    requires "rules" in data && data["rules"] == VDict(rules)
    requires "enabled" in data && data["enabled"] == VBool(enabled)
    requires CreateSpec(Ruleset, st, data, now, json).0 == Ok(true)
    ensures var st' := CreateSpec(Ruleset, st, data, now, json).1;
      var got := GetRulesetSpec(st', ToStr(data["ruleset_id"]), json);
      got.Ok? && got.value.Some?
      && got.value.value["rules"] == VDict(rules) && got.value.value["enabled"] == VBool(enabled)
  {
    var id := data["ruleset_id"];
    var key := RecordKey(Ruleset, ToStr(id));
    var d := EncodeFields(Ruleset, data["created_at" := VStr(now)], json);
    CreateStoresAndIndexes(Ruleset, st, data, now, json);
    var m := EncodeAll(d).value;
    assert m["rules"] == json.dumps(VDict(rules));
    LowerTrueFalse();
    assert m["enabled"] == if enabled then "true" else "false";
  }

  predicate Distinct(fields: seq<string>) {
    forall i, j :: 0 <= i < j < |fields| ==> fields[i] != fields[j]
  }

  lemma {:induction false} DecodeListFieldsKeeps(d: map<string, Value>, fields: seq<string>, json: Json, key: string)
    requires key !in fields
    ensures var d' := DecodeListFields(d, fields, json); (key in d' <==> key in d) && (key in d ==> d'[key] == d[key])
  {
    if fields != [] {
      DecodeListFieldsKeeps(d, fields[..|fields| - 1], json, key);
    }
  }

  /** Each of several distinct list fields is decoded from its own stored text. */
  lemma {:induction false} DecodeListFieldsAt(d: map<string, Value>, fields: seq<string>, json: Json, f: string)
    requires f in fields && f in d && Distinct(fields)
    ensures f in DecodeListFields(d, fields, json)
    ensures DecodeListFields(d, fields, json)[f] == DecodeListField(d, f, json)[f]
  {
    var n := |fields| - 1;
    var pre := fields[..n];
    if fields[n] == f {
      DecodeListFieldsKeeps(d, pre, json, f);
    } else {
      assert f in pre by {
        var i :| 0 <= i < |fields| && fields[i] == f;
        assert i < n && pre[i] == f;
      }
      DecodeListFieldsAt(d, pre, json, f);
    }
  }

  /** A policy list field whose text does not parse reads back as `[]`;
      one that parses reads back as the parsed value. */
  lemma PolicyListFieldDecoding(h: map<string, string>, json: Json, field: string)
    requires field in ListFields && field in h
    ensures field in DecodePolicy(h, json)
    ensures json.loads(h[field]).None? ==> DecodePolicy(h, json)[field] == VList([])
    ensures json.loads(h[field]).Some? ==> DecodePolicy(h, json)[field] == json.loads(h[field]).value
  {
    DecodeListFieldsAt(StrFields(h), ListFields, json, field);
  }

  /** Listed order is kept: the prompt rules of two lists of ids are those
      of the first followed by those of the second. */
  lemma {:induction false} PromptRulesAppend(st: Store, a: seq<Value>, b: seq<Value>, json: Json)
    requires PromptRulesOf(st, a + b, json).Ok?
    ensures PromptRulesOf(st, a, json).Ok? && PromptRulesOf(st, b, json).Ok?
    ensures PromptRulesOf(st, a + b, json).value == PromptRulesOf(st, a, json).value + PromptRulesOf(st, b, json).value
  {
    if b == [] {
      assert a + b == a;
      assert PromptRulesOf(st, a, json).value + [] == PromptRulesOf(st, a, json).value;
    } else {
      var b' := b[..|b| - 1];
      var last := b[|b| - 1];
      assert (a + b)[..|a + b| - 1] == a + b';
      assert (a + b)[|a + b| - 1] == last;
      PromptRulesAppend(st, a, b', json);
      var ra := PromptRulesOf(st, a, json).value;
      var rb' := PromptRulesOf(st, b', json).value;
      var rs := EnabledRuleset(st, last, json).value;
      if rs.Some? {
        assert ra + rb' + [PromptEntry(rs.value)] == ra + (rb' + [PromptEntry(rs.value)]);
      }
    }
  }

  /** A ruleset that is disabled or has no `enabled` field contributes
      neither a prompt rule nor a tool rule. */
  lemma NotEnabledIsSkipped(st: Store, ids: seq<Value>, id: Value, json: Json)
    requires GetRulesetSpec(st, ToStr(id), json).Ok?
    requires var rs := GetRulesetSpec(st, ToStr(id), json).value; rs.None? || !Truthy(Get(rs.value, "enabled", VNone))
    ensures PromptRulesOf(st, ids + [id], json) == PromptRulesOf(st, ids, json)
    ensures ToolRulesOf(st, ids + [id], json) == ToolRulesOf(st, ids, json)
  {
    assert (ids + [id])[..|ids|] == ids;
  }

  /** A stored ruleset without an `enabled` field reads with no `enabled` key, so it is skipped. */
  lemma MissingEnabledIsSkipped(st: Store, ids: seq<Value>, id: Value, json: Json)
    requires HGetAll(st, RecordKey(Ruleset, ToStr(id))).Ok?
    requires "enabled" !in HGetAll(st, RecordKey(Ruleset, ToStr(id))).value
    ensures PromptRulesOf(st, ids + [id], json) == PromptRulesOf(st, ids, json)
    ensures ToolRulesOf(st, ids + [id], json) == ToolRulesOf(st, ids, json)
  {
    var h := HGetAll(st, RecordKey(Ruleset, ToStr(id))).value;
    if h != map[] {
      assert "enabled" !in DecodeRuleset(h, json);
    }
    NotEnabledIsSkipped(st, ids, id, json);
  }

  /** The last enabled ruleset naming a tool decides that tool's rules. */
  lemma ToolRulesLastWins(st: Store, ids: seq<Value>, id: Value, json: Json)
    requires ToolRulesOf(st, ids + [id], json).Ok?
    requires var rs := EnabledRuleset(st, id, json); rs.Ok? && rs.value.Some? && Truthy(Get(rs.value.value, "tool_name", VNone))
    ensures var rs := EnabledRuleset(st, id, json).value.value;
      var name := ToStr(Get(rs, "tool_name", VNone));
      ToolRulesOf(st, ids + [id], json).value == ToolRulesOf(st, ids, json).value[name := Get(rs, "rules", VDict(map[]))]
  {
    assert (ids + [id])[..|ids|] == ids;
  }

  /** Every tool in `tool_validation_rules` comes from an enabled ruleset in the list that names it. */
  lemma {:induction false} ToolRulesFromEnabled(st: Store, ids: seq<Value>, json: Json, name: string)
    requires ToolRulesOf(st, ids, json).Ok? && name in ToolRulesOf(st, ids, json).value
    ensures exists j :: 0 <= j < |ids| && NamesTool(st, ids[j], json, name)
  {
    var n := |ids| - 1;
    var rs := EnabledRuleset(st, ids[n], json).value;
    if rs.Some? && Truthy(Get(rs.value, "tool_name", VNone)) && ToStr(Get(rs.value, "tool_name", VNone)) == name {
      assert NamesTool(st, ids[n], json, name);
    } else {
      ToolRulesFromEnabled(st, ids[..n], json, name);
      var j :| 0 <= j < n && NamesTool(st, ids[..n][j], json, name);
      assert ids[..n][j] == ids[j];
    }
  }

  predicate NamesTool(st: Store, id: Value, json: Json, name: string) {
    var rs := EnabledRuleset(st, id, json);
    rs.Ok? && rs.value.Some? && Truthy(Get(rs.value.value, "tool_name", VNone))
    && ToStr(Get(rs.value.value, "tool_name", VNone)) == name
  }

  /** Finding a policy: when nothing raises, `None` iff no visited hash
      matches, and a found hash is one of them and matches. */
  lemma {:induction false} FindPolicyCases(st: Store, ids: seq<string>, agentId: string)
    requires forall i :: 0 <= i < |ids| ==> HGetAll(st, RecordKey(Policy, ids[i])).Ok?
    ensures FindPolicy(st, ids, agentId).Ok?
    ensures FindPolicy(st, ids, agentId).value.None? <==>
      forall i :: 0 <= i < |ids| ==> !PolicyMatches(HGetAll(st, RecordKey(Policy, ids[i])).value, agentId)
    ensures FindPolicy(st, ids, agentId).value.Some? ==>
      var h := FindPolicy(st, ids, agentId).value.value;
      PolicyMatches(h, agentId) && exists i :: 0 <= i < |ids| && HGetAll(st, RecordKey(Policy, ids[i])) == Ok(h)
  {
    if ids != [] {
      var n := |ids| - 1;
      var pre := ids[..n];
      assert forall i :: 0 <= i < n ==> pre[i] == ids[i];
      FindPolicyCases(st, pre, agentId);
      var found := FindPolicy(st, pre, agentId).value;
      if found.Some? {
        var i :| 0 <= i < n && HGetAll(st, RecordKey(Policy, pre[i])) == Ok(found.value);
        assert HGetAll(st, RecordKey(Policy, ids[i])) == Ok(found.value);
      }
    }
  }

  /** For a positive `limit`, `get_logs` gives the parsed, matching entries
      among the `limit` newest, newest first: the final `[:limit]` never
      cuts, since no more than `limit` entries were read. An entry comes
      back exactly when it parses from one of those and matches. */
  lemma GetLogsBounded(st: Store, limit: int, agentId: Option<string>, json: Json)
    requires limit >= 1 && ListAt(st, LogsKey).Ok?
    ensures var all := ListAt(st, LogsKey).value;
      var newest := all[..if limit < |all| then limit else |all|];
      GetLogsSpec(st, limit, agentId, json) == Ok(FilterLogs(newest, agentId, json))
      && |FilterLogs(newest, agentId, json)| <= limit
      && forall x :: x in FilterLogs(newest, agentId, json) <==>
        exists i :: 0 <= i < |all| && i < limit && json.loads(all[i]) == Some(x) && LogMatches(x, agentId)
  {
    var all := ListAt(st, LogsKey).value;
    var newest := all[..if limit < |all| then limit else |all|];
    LRangeFromHead(all, limit);
    assert LRange(st, LogsKey, 0, limit - 1) == Ok(newest);
    var logs := FilterLogs(newest, agentId, json);
    assert SliceTo(logs, limit) == logs;
    FilterLogsExact(newest, agentId, json);
    forall x
      ensures (exists i :: 0 <= i < |newest| && json.loads(newest[i]) == Some(x) && LogMatches(x, agentId))
          <==> (exists i :: 0 <= i < |all| && i < limit && json.loads(all[i]) == Some(x) && LogMatches(x, agentId))
    {
      if exists i :: 0 <= i < |all| && i < limit && json.loads(all[i]) == Some(x) && LogMatches(x, agentId) {
        var i :| 0 <= i < |all| && i < limit && json.loads(all[i]) == Some(x) && LogMatches(x, agentId);
        assert newest[i] == all[i];
      }
      if exists i :: 0 <= i < |newest| && json.loads(newest[i]) == Some(x) && LogMatches(x, agentId) {
        var i :| 0 <= i < |newest| && json.loads(newest[i]) == Some(x) && LogMatches(x, agentId);
        assert newest[i] == all[i];
      }
    }
  }

  /** The filtered logs are exactly the entries that parse and match. */
  lemma {:induction false} FilterLogsExact(entries: seq<string>, agentId: Option<string>, json: Json)
    ensures forall x :: x in FilterLogs(entries, agentId, json) <==>
      exists i :: 0 <= i < |entries| && json.loads(entries[i]) == Some(x) && LogMatches(x, agentId)
  {
    if entries != [] {
      var n := |entries| - 1;
      FilterLogsExact(entries[..n], agentId, json);
      forall x
        ensures x in FilterLogs(entries, agentId, json) <==>
          exists i :: 0 <= i < |entries| && json.loads(entries[i]) == Some(x) && LogMatches(x, agentId)
      {
        if x in FilterLogs(entries, agentId, json) && x !in FilterLogs(entries[..n], agentId, json) {
          assert json.loads(entries[n]) == Some(x) && LogMatches(x, agentId);
        }
        if x in FilterLogs(entries[..n], agentId, json) {
          var i :| 0 <= i < n && json.loads(entries[..n][i]) == Some(x) && LogMatches(x, agentId);
          assert entries[..n][i] == entries[i];
        }
        if exists i :: 0 <= i < |entries| && json.loads(entries[i]) == Some(x) && LogMatches(x, agentId) {
          var i :| 0 <= i < |entries| && json.loads(entries[i]) == Some(x) && LogMatches(x, agentId);
          if i < n {
            assert entries[..n][i] == entries[i];
          }
        }
      }
    }
  }

  /** Filtering commutes with concatenation, so the logs keep the list's
      newest-first order. */
  lemma {:induction false} FilterLogsAppend(xs: seq<string>, ys: seq<string>, agentId: Option<string>, json: Json)
    ensures FilterLogs(xs + ys, agentId, json) == FilterLogs(xs, agentId, json) + FilterLogs(ys, agentId, json)
  {
    if ys == [] {
      assert xs + ys == xs;
    } else {
      var n := |ys| - 1;
      FilterLogsAppend(xs, ys[..n], agentId, json);
      assert (xs + ys)[..|xs + ys| - 1] == xs + ys[..n];
    }
  }

  /** `get_logs(0)` is empty: LRANGE 0 -1 reads the whole list, but `[:0]` drops it. */
  lemma GetLogsZeroIsEmpty(st: Store, agentId: Option<string>, json: Json)
    requires ListAt(st, LogsKey).Ok?
    ensures GetLogsSpec(st, 0, agentId, json) == Ok([])
  {
  }

  /** `add_log` keeps the list newest first and at most 10000 long: the new
      entry is the head, followed by the old list's head, and nothing is
      dropped while the old list was shorter than the cap. */
  lemma AddLogCapped(st: Store, data: map<string, Value>, now: string, json: Json)
    requires ListAt(st, LogsKey).Ok?
    ensures var (r, st', d) := AddLogSpec(st, data, now, json);
      r == Ok(true) && ListAt(st', LogsKey).Ok?
      && var xs := ListAt(st', LogsKey).value; var old_ := ListAt(st, LogsKey).value;
      1 <= |xs| <= MaxLogs && xs[0] == json.dumps(VDict(d)) && xs[1..] == old_[..|xs| - 1]
      && (|old_| < MaxLogs ==> xs[1..] == old_)
  {
    var d := data["timestamp" := VStr(now)];
    PushThenTrimCapped(st, LogsKey, json.dumps(VDict(d)), MaxLogs);
  }

  /** After `clear_logs` there are no logs to read and none to count. */
  lemma ClearThenEmpty(st: Store, limit: int, agentId: Option<string>, json: Json)
    ensures GetLogsSpec(Delete(st, LogsKey), limit, agentId, json) == Ok([])
    ensures LLen(Delete(st, LogsKey), LogsKey) == Ok(0)
  {
  }

  // ---------------------------------------------------------------------
  // The database object
  // ---------------------------------------------------------------------

  /** `IAMDatabase`: the Redis keyspace it talks to and the JSON codec it uses. */
  class IAMDatabase {
    var store: Store
    const json: Json

    /** Whether default seeding at construction finished; when it is false a
        Redis command raised, and Python's constructor raises with it. */
    var seeded: bool

    /** Connects to a keyspace holding `initial` and seeds the default data.
        A seeding error is recorded in `seeded`, over the keyspace as far as
        seeding got. */
    constructor (initial: Store, json: Json, now: string)
      ensures this.json == json
      ensures (seeded, store) == InitSpec(initial, now, json)
    {
      this.json := json;
      store := initial;
      new;
      seeded := InitDefaultData(now);
    }

    /** `_init_default_data`; false when a Redis command raised. */
    method InitDefaultData(now: string) returns (ok: bool)
      modifies this
      ensures (ok, store) == InitSpec(old(store), now, json)
    {
      if Exists(store, RecordKey(Agent, "orchestrator")) {
        return true;
      }
      ok := StoreRecords(Agent, DefaultAgents(now));
      if !ok {
        return;
      }
      ok := StoreRecords(Ruleset, DefaultRulesets(now, json));
      if !ok {
        return;
      }
      ok := StoreRecords(Policy, DefaultPolicies(now, json));
    }

    /** One of the seeding loops of `_init_default_data`. */
    method StoreRecords(k: Kind, records: seq<map<string, string>>) returns (ok: bool)
      modifies this
      ensures (ok, store) == SeedRecords(old(store), k, records)
    {
      ghost var st0 := store;
      var i := 0;
      while i < |records|
        invariant 0 <= i <= |records|
        invariant SeedRecords(st0, k, records[..i]) == (true, store)
      {
        assert records[..i + 1][..i] == records[..i];
        assert SeedRecords(st0, k, records[..i + 1]) == SeedStep(store, k, records[i]);
        ok := StoreRecord(k, records[i]);
        if !ok {
          SeedPrefixFails(st0, k, records, i + 1);
          return;
        }
        i := i + 1;
      }
      assert records[..i] == records;
      return true;
    }

    /** One iteration of a seeding loop. */
    method StoreRecord(k: Kind, rec: map<string, string>) returns (ok: bool)
      modifies this
      ensures (ok, store) == SeedStep(old(store), k, rec)
    {
      if IdField(k) !in rec {
        return false;
      }
      var id := rec[IdField(k)];
      var st1 := HSet(store, RecordKey(k, id), rec);
      if st1.Fault? {
        return false;
      }
      store := st1.value;
      var st2 := SAdd(store, AllKey(k), id);
      if st2.Fault? {
        return false;
      }
      store := st2.value;
      return true;
    }

    // ----- agents -----

    method GetAllAgents() returns (r: Result<seq<map<string, Value>>>, ghost order: seq<string>)
      ensures SMembers(store, AllKey(Agent)).Fault? ==> r.Fault?
      ensures SMembers(store, AllKey(Agent)).Ok? ==>
        |order| == |SMembers(store, AllKey(Agent)).value|
        && (forall id :: id in order <==> id in SMembers(store, AllKey(Agent)).value)
        && r == AllRecords(store, Agent, order, json)
    {
      r, order := GetAll(Agent);
    }

    /** `get_agent`: the agent's hash, `None` when missing or empty. */
    method GetAgent(agentId: string) returns (r: Result<Option<map<string, string>>>)
      ensures HGetAll(store, RecordKey(Agent, agentId)).Fault? ==> r.Fault?
      ensures HGetAll(store, RecordKey(Agent, agentId)).Ok? ==>
        var h := HGetAll(store, RecordKey(Agent, agentId)).value;
        r.Ok? && (r.value.None? <==> h == map[]) && (r.value.Some? ==> r.value.value == h)
    {
      var h := HGetAll(store, RecordKey(Agent, agentId));
      if h.Fault? {
        return Fault;
      }
      r := Ok(if h.value != map[] then Some(h.value) else None);
    }

    method UpdateAgent(agentId: string, data: map<string, Value>) returns (r: Result<bool>)
      modifies this
      ensures (r, store) == (UpdateSpec(Agent, old(store), agentId, data, "", json).0, UpdateSpec(Agent, old(store), agentId, data, "", json).1)
    {
      if !Exists(store, RecordKey(Agent, agentId)) {
        return Ok(false);
      }
      var st1 := HSetValues(store, RecordKey(Agent, agentId), data);
      if st1.Fault? {
        return Fault;
      }
      store := st1.value;
      return Ok(true);
    }

    method CreateAgent(data: PyDict, now: string) returns (r: Result<bool>)
      modifies this, data
      ensures (r, store, data.entries) == CreateSpec(Agent, old(store), old(data.entries), now, json)
    {
      var id := Get(data.entries, "agent_id", VNone);
      if !Truthy(id) {
        return Ok(false);
      }
      data.entries := data.entries["created_at" := VStr(now)];
      r := StoreNew(Agent, id, data.entries);
    }

    /** The `hset` and `sadd` that end every create. */
    method StoreNew(k: Kind, id: Value, d: map<string, Value>) returns (r: Result<bool>)
      modifies this
      ensures var st1 := HSetValues(old(store), RecordKey(k, ToStr(id)), d);
        if st1.Fault? then r == Fault && store == old(store)
        else if Encode(id).None? || SAdd(st1.value, AllKey(k), Encode(id).value).Fault? then r == Fault && store == st1.value
        else r == Ok(true) && store == SAdd(st1.value, AllKey(k), Encode(id).value).value
    {
      var st1 := HSetValues(store, RecordKey(k, ToStr(id)), d);
      if st1.Fault? {
        return Fault;
      }
      store := st1.value;
      var member := Encode(id);
      if member.None? {
        return Fault;
      }
      var st2 := SAdd(store, AllKey(k), member.value);
      if st2.Fault? {
        return Fault;
      }
      store := st2.value;
      return Ok(true);
    }

    // ----- rulesets -----

    method GetAllRulesets() returns (r: Result<seq<map<string, Value>>>, ghost order: seq<string>)
      ensures SMembers(store, AllKey(Ruleset)).Fault? ==> r.Fault?
      ensures SMembers(store, AllKey(Ruleset)).Ok? ==>
        |order| == |SMembers(store, AllKey(Ruleset)).value|
        && (forall id :: id in order <==> id in SMembers(store, AllKey(Ruleset)).value)
        && r == AllRecords(store, Ruleset, order, json)
    {
      r, order := GetAll(Ruleset);
    }

    method GetRuleset(rulesetId: string) returns (r: Result<Option<map<string, Value>>>)
      ensures r == GetRulesetSpec(store, rulesetId, json)
    {
      var h := HGetAll(store, RecordKey(Ruleset, rulesetId));
      if h.Fault? {
        return Fault;
      }
      if h.value == map[] {
        return Ok(None);
      }
      var d := StrFields(h.value);
      if "rules" in h.value {
        var parsed := json.loads(h.value["rules"]);
        if parsed.Some? {
          d := d["rules" := parsed.value];
        }
      }
      if "enabled" in h.value {
        d := d["enabled" := DecodeFlag(h.value["enabled"])];
      }
      return Ok(Some(d));
    }

    method CreateRuleset(data: PyDict, now: string) returns (r: Result<bool>)
      modifies this, data
      ensures (r, store, data.entries) == CreateSpec(Ruleset, old(store), old(data.entries), now, json)
    {
      var id := Get(data.entries, "ruleset_id", VNone);
      if !Truthy(id) {
        return Ok(false);
      }
      data.entries := data.entries["created_at" := VStr(now)];
      data.entries := EncodeRules(data.entries, json);
      data.entries := EncodeEnabled(data.entries);
      r := StoreNew(Ruleset, id, data.entries);
    }

    method UpdateRuleset(rulesetId: string, data: PyDict, now: string) returns (r: Result<bool>)
      modifies this, data
      ensures (r, store, data.entries) == UpdateSpec(Ruleset, old(store), rulesetId, old(data.entries), now, json)
    {
      if !Exists(store, RecordKey(Ruleset, rulesetId)) {
        return Ok(false);
      }
      data.entries := data.entries["updated_at" := VStr(now)];
      data.entries := EncodeRules(data.entries, json);
      data.entries := EncodeEnabled(data.entries);
      var st1 := HSetValues(store, RecordKey(Ruleset, rulesetId), data.entries);
      if st1.Fault? {
        return Fault;
      }
      store := st1.value;
      return Ok(true);
    }

    method DeleteRuleset(rulesetId: string) returns (r: Result<bool>)
      modifies this
      ensures (r, store) == DeleteRulesetSpec(old(store), rulesetId)
    {
      if !Exists(store, RecordKey(Ruleset, rulesetId)) {
        return Ok(false);
      }
      store := Delete(store, RecordKey(Ruleset, rulesetId));
      var st1 := SRem(store, AllKey(Ruleset), rulesetId);
      if st1.Fault? {
        return Fault;
      }
      store := st1.value;
      return Ok(true);
    }

    // ----- policies -----

    method GetAllPolicies() returns (r: Result<seq<map<string, Value>>>, ghost order: seq<string>)
      ensures SMembers(store, AllKey(Policy)).Fault? ==> r.Fault?
      ensures SMembers(store, AllKey(Policy)).Ok? ==>
        |order| == |SMembers(store, AllKey(Policy)).value|
        && (forall id :: id in order <==> id in SMembers(store, AllKey(Policy)).value)
        && r == AllRecords(store, Policy, order, json)
    {
      r, order := GetAll(Policy);
    }

    method GetPolicy(policyId: string) returns (r: Result<Option<map<string, Value>>>)
      ensures r == GetPolicySpec(store, policyId, json)
    {
      var h := HGetAll(store, RecordKey(Policy, policyId));
      if h.Fault? {
        return Fault;
      }
      if h.value == map[] {
        return Ok(None);
      }
      var d := ParsePolicy(h.value);
      return Ok(Some(d));
    }

    /** The field parsing shared by the policy readers. */
    method ParsePolicy(h: map<string, string>) returns (d: map<string, Value>)
      ensures d == DecodePolicy(h, json)
    {
      d := StrFields(h);
      var i := 0;
      while i < |ListFields|
        invariant 0 <= i <= |ListFields|
        invariant d == DecodeListFields(StrFields(h), ListFields[..i], json)
      {
        assert ListFields[..i + 1][..i] == ListFields[..i];
        var field := ListFields[i];
        if field in d {
          var parsed := if d[field].VStr? then json.loads(d[field].s) else None;
          d := d[field := if parsed.Some? then parsed.value else VList([])];
        }
        i := i + 1;
      }
      assert ListFields[..i] == ListFields;
      if "enabled" in h {
        d := d["enabled" := DecodeFlag(h["enabled"])];
      }
    }

    /** `get_policy_by_agent`. `order` is the order in which the index set
        was visited until a policy of the agent turned up. */
    method GetPolicyByAgent(agentId: string) returns (r: Result<Option<map<string, Value>>>, ghost order: seq<string>)
      ensures SMembers(store, AllKey(Policy)).Fault? ==> r.Fault?
      ensures SMembers(store, AllKey(Policy)).Ok? ==>
        var ids := SMembers(store, AllKey(Policy)).value;
        (forall id :: id in order ==> id in ids)
        && (FindPolicy(store, order, agentId) == Ok(None) ==> forall id :: id in ids ==> id in order)
        && r == match FindPolicy(store, order, agentId)
                case Fault => Fault
                case Ok(None) => Ok(None)
                case Ok(Some(h)) => match EnrichSpec(store, h, json) case Fault => Fault case Ok(p) => Ok(Some(p))
    {
      order := [];
      var ids := SMembers(store, AllKey(Policy));
      if ids.Fault? {
        return Fault, order;
      }
      var remaining := ids.value;
      var found: Option<map<string, string>> := None;
      while remaining != {} && found.None?
        invariant remaining <= ids.value
        invariant forall id :: id in order ==> id in ids.value
        invariant forall id :: id in ids.value ==> id in remaining || id in order
        invariant FindPolicy(store, order, agentId) == Ok(found)
        decreases |remaining|
      {
        var id :| id in remaining;
        remaining := remaining - {id};
        order := order + [id];
        assert order[..|order| - 1] + [id] == order;
        var h := HGetAll(store, RecordKey(Policy, id));
        if h.Fault? {
          return Fault, order;
        }
        if PolicyMatches(h.value, agentId) {
          found := Some(h.value);
        }
      }
      if found.None? {
        return Ok(None), order;
      }
      var p := Enrich(found.value);
      r := if p.Fault? then Fault else Ok(Some(p.value));
    }

    /** The parsing and the two enrichment loops of `get_policy_by_agent`. */
    method Enrich(h: map<string, string>) returns (r: Result<map<string, Value>>)
      ensures r == EnrichSpec(store, h, json)
    {
      var policy := ParsePolicy(h);
      var pids := Iter(Get(policy, "prompt_validation_rulesets", VList([])));
      if pids.None? {
        return Fault;
      }
      var prompts := CollectPromptRules(pids.value);
      if prompts.Fault? {
        return Fault;
      }
      var tids := Iter(Get(policy, "tool_validation_rulesets", VList([])));
      if tids.None? {
        return Fault;
      }
      var tools := CollectToolRules(tids.value);
      if tools.Fault? {
        return Fault;
      }
      r := Ok(policy["prompt_validation_rules" := VList(prompts.value)]["tool_validation_rules" := VDict(tools.value)]);
    }

    /** The loop that fills `prompt_validation_rules`. */
    method CollectPromptRules(ids: seq<Value>) returns (r: Result<seq<Value>>)
      ensures r == PromptRulesOf(store, ids, json)
    {
      var prompts: seq<Value> := [];
      var i := 0;
      while i < |ids|
        invariant 0 <= i <= |ids|
        invariant PromptRulesOf(store, ids[..i], json) == Ok(prompts)
      {
        assert ids[..i + 1][..i] == ids[..i];
        var ruleset := GetRuleset(ToStr(ids[i]));
        if ruleset.Fault? {
          PromptPrefixFails(store, ids, i + 1, json);
          return Fault;
        }
        assert EnabledRuleset(store, ids[i], json)
          == Ok(if ruleset.value.Some? && Truthy(Get(ruleset.value.value, "enabled", VNone)) then ruleset.value else None);
        if ruleset.value.Some? && Truthy(Get(ruleset.value.value, "enabled", VNone)) {
          prompts := prompts + [PromptEntry(ruleset.value.value)];
        }
        i := i + 1;
      }
      assert ids[..i] == ids;
      return Ok(prompts);
    }

    /** The loop that fills `tool_validation_rules`. */
    method CollectToolRules(ids: seq<Value>) returns (r: Result<map<string, Value>>)
      ensures r == ToolRulesOf(store, ids, json)
    {
      var tools: map<string, Value> := map[];
      var i := 0;
      while i < |ids|
        invariant 0 <= i <= |ids|
        invariant ToolRulesOf(store, ids[..i], json) == Ok(tools)
      {
        assert ids[..i + 1][..i] == ids[..i];
        var ruleset := GetRuleset(ToStr(ids[i]));
        if ruleset.Fault? {
          ToolPrefixFails(store, ids, i + 1, json);
          return Fault;
        }
        assert EnabledRuleset(store, ids[i], json)
          == Ok(if ruleset.value.Some? && Truthy(Get(ruleset.value.value, "enabled", VNone)) then ruleset.value else None);
        if ruleset.value.Some? && Truthy(Get(ruleset.value.value, "enabled", VNone)) {
          var toolName := Get(ruleset.value.value, "tool_name", VNone);
          if Truthy(toolName) {
            tools := tools[ToStr(toolName) := Get(ruleset.value.value, "rules", VDict(map[]))];
          }
        }
        i := i + 1;
      }
      assert ids[..i] == ids;
      return Ok(tools);
    }

    method UpdatePolicy(policyId: string, data: PyDict, now: string) returns (r: Result<bool>)
      modifies this, data
      ensures (r, store, data.entries) == UpdateSpec(Policy, old(store), policyId, old(data.entries), now, json)
    {
      if !Exists(store, RecordKey(Policy, policyId)) {
        return Ok(false);
      }
      data.entries := data.entries["updated_at" := VStr(now)];
      EncodePolicyFields(data);
      var st1 := HSetValues(store, RecordKey(Policy, policyId), data.entries);
      if st1.Fault? {
        return Fault;
      }
      store := st1.value;
      return Ok(true);
    }

    method CreatePolicy(data: PyDict, now: string) returns (r: Result<bool>)
      modifies this, data
      ensures (r, store, data.entries) == CreateSpec(Policy, old(store), old(data.entries), now, json)
    {
      var id := Get(data.entries, "policy_id", VNone);
      if !Truthy(id) {
        return Ok(false);
      }
      data.entries := data.entries["created_at" := VStr(now)];
      EncodePolicyFields(data);
      r := StoreNew(Policy, id, data.entries);
    }

    /** The field loop shared by policy create and update. */
    method EncodePolicyFields(data: PyDict)
      modifies data
      ensures data.entries == EncodeFields(Policy, old(data.entries), json)
    {
      ghost var d0 := data.entries;
      var i := 0;
      while i < |ListFields|
        invariant 0 <= i <= |ListFields|
        invariant data.entries == EncodeListFields(d0, ListFields[..i], json)
      {
        assert ListFields[..i + 1][..i] == ListFields[..i];
        var field := ListFields[i];
        if field in data.entries && data.entries[field].VList? {
          data.entries := data.entries[field := VStr(json.dumps(data.entries[field]))];
        }
        i := i + 1;
      }
      assert ListFields[..i] == ListFields;
      data.entries := EncodeEnabled(data.entries);
    }

    // ----- logs and statistics -----

    method AddLog(logData: PyDict, now: string) returns (r: Result<bool>)
      modifies this, logData
      ensures (r, store, logData.entries) == AddLogSpec(old(store), old(logData.entries), now, json)
    {
      logData.entries := logData.entries["timestamp" := VStr(now)];
      var entry := json.dumps(VDict(logData.entries));
      var st1 := LPush(store, LogsKey, entry);
      if st1.Fault? {
        return Fault;
      }
      store := st1.value;
      var st2 := LTrim(store, LogsKey, 0, MaxLogs - 1);
      if st2.Fault? {
        return Fault;
      }
      store := st2.value;
      return Ok(true);
    }

    method GetLogs(limit: int, agentId: Option<string>) returns (r: Result<seq<Value>>)
      ensures r == GetLogsSpec(store, limit, agentId, json)
    {
      var entries := LRange(store, LogsKey, 0, limit - 1);
      if entries.Fault? {
        return Fault;
      }
      var logs: seq<Value> := [];
      var i := 0;
      while i < |entries.value|
        invariant 0 <= i <= |entries.value|
        invariant logs == FilterLogs(entries.value[..i], agentId, json)
      {
        assert entries.value[..i + 1][..i] == entries.value[..i];
        var log := json.loads(entries.value[i]);
        if log.Some? && LogMatches(log.value, agentId) {
          logs := logs + [log.value];
        }
        i := i + 1;
      }
      assert entries.value[..i] == entries.value;
      return Ok(SliceTo(logs, limit));
    }

    method ClearLogs() returns (r: bool)
      modifies this
      ensures r && store == Delete(old(store), LogsKey)
    {
      store := Delete(store, LogsKey);
      return true;
    }

    /** `get_stats`: the sizes of the three index sets and the length of the
        log list; a key of the wrong type raises. */
    method GetStats() returns (r: Result<map<string, Value>>)
      ensures r.Ok? <==> SMembers(store, AllKey(Agent)).Ok? && SMembers(store, AllKey(Ruleset)).Ok?
                          && SMembers(store, AllKey(Policy)).Ok? && ListAt(store, LogsKey).Ok?
      ensures r.Ok? ==>
        r.value == map["total_agents" := VInt(|SMembers(store, AllKey(Agent)).value|),
                       "total_rulesets" := VInt(|SMembers(store, AllKey(Ruleset)).value|),
                       "total_policies" := VInt(|SMembers(store, AllKey(Policy)).value|),
                       "total_logs" := VInt(|ListAt(store, LogsKey).value|)]
    {
      r := StatsSpec(store);
    }

    /** The loop shared by the three `get_all_*` readers: the index set is
        visited in an unspecified order (`order`). */
    method GetAll(k: Kind) returns (r: Result<seq<map<string, Value>>>, ghost order: seq<string>)
      ensures SMembers(store, AllKey(k)).Fault? ==> r.Fault?
      ensures SMembers(store, AllKey(k)).Ok? ==>
        |order| == |SMembers(store, AllKey(k)).value|
        && (forall id :: id in order <==> id in SMembers(store, AllKey(k)).value)
        && r == AllRecords(store, k, order, json)
    {
      order := [];
      var ids := SMembers(store, AllKey(k));
      if ids.Fault? {
        return Fault, order;
      }
      var remaining := ids.value;
      var records: seq<map<string, Value>> := [];
      var failed := false;
      while remaining != {}
        invariant remaining <= ids.value
        invariant forall id :: id in order <==> id in ids.value && id !in remaining
        invariant |order| + |remaining| == |ids.value|
        invariant if failed then AllRecords(store, k, order, json).Fault? else AllRecords(store, k, order, json) == Ok(records)
        decreases |remaining|
      {
        var id :| id in remaining;
        remaining := remaining - {id};
        order := order + [id];
        assert order[..|order| - 1] + [id] == order;
        if !failed {
          var h := HGetAll(store, RecordKey(k, id));
          if h.Fault? {
            failed := true;
          } else if h.value != map[] {
            records := records + [Decode(k, h.value, json)];
          }
        }
      }
      r := if failed then Fault else Ok(records);
    }
  }

  /** Once a prefix of the records fails to seed, so does the whole list. */
  lemma {:induction false} SeedPrefixFails(st: Store, k: Kind, records: seq<map<string, string>>, n: nat)
    requires n <= |records| && !SeedRecords(st, k, records[..n]).0
    ensures SeedRecords(st, k, records) == SeedRecords(st, k, records[..n])
  {
    if n < |records| {
      assert records[..|records| - 1][..n] == records[..n];
      SeedPrefixFails(st, k, records[..|records| - 1], n);
      assert records[..|records|] == records;
    } else {
      assert records[..n] == records;
    }
  }

  lemma {:induction false} PromptPrefixFails(st: Store, ids: seq<Value>, n: nat, json: Json)
    requires n <= |ids| && PromptRulesOf(st, ids[..n], json).Fault?
    ensures PromptRulesOf(st, ids, json).Fault?
  {
    if n < |ids| {
      assert ids[..|ids| - 1][..n] == ids[..n];
      PromptPrefixFails(st, ids[..|ids| - 1], n, json);
    } else {
      assert ids[..n] == ids;
    }
  }

  lemma {:induction false} ToolPrefixFails(st: Store, ids: seq<Value>, n: nat, json: Json)
    requires n <= |ids| && ToolRulesOf(st, ids[..n], json).Fault?
    ensures ToolRulesOf(st, ids, json).Fault?
  {
    if n < |ids| {
      assert ids[..|ids| - 1][..n] == ids[..n];
      ToolPrefixFails(st, ids[..|ids| - 1], n, json);
    } else {
      assert ids[..n] == ids;
    }
  }
}
