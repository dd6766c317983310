/** The chat web client (client/app.py): the in-memory session map, login,
    logout and session lookup, the `Authorization` header sent to the
    orchestrator, and how a reply text is dug out of the orchestrator's
    JSON-RPC result. HTTP calls to the token server and the orchestrator
    are parameters. */
module ChatClient {
  import opened PyValue
  import IamPolicy

  datatype UserProfile = UserProfile(email: string, tenants: seq<string>)
  datatype SessionData = SessionData(token: string, tokenType: string, user: UserProfile)
  datatype LoginResponse = LoginResponse(accessToken: string, tokenType: string, user: UserProfile)
  datatype ChatResponse = ChatResponse(reply: string, rawResponse: map<string, Value>)

  const LoginRequired := "로그인이 필요합니다."
  const EmptyMessage := "메시지를 입력해 주세요."
  const NoToken := "JWT 토큰을 발급받지 못했습니다"
  const NoProfile := "JWT 서버가 사용자 정보를 반환하지 않았습니다"
  const Unreadable := "오케스트레이터 응답을 해석하지 못했습니다."

  // ---------------------------------------------------------------------
  // Tenants
  // ---------------------------------------------------------------------

  /** `isinstance(item, (str, int, float))`; a bool is an int. */
  predicate IsTenantScalar(v: Value) {
    v.VStr? || v.VInt? || v.VBool? || v.VFloat?
  }

  function ScalarTenants(xs: seq<Value>): seq<string> {
    if xs == [] then []
    else
      var acc := ScalarTenants(xs[..|xs| - 1]);
      var x := xs[|xs| - 1];
      if IsTenantScalar(x) then acc + [ToStr(x)] else acc
  }

  /** `_normalize_tenants`: a string is one tenant, a list keeps its scalar
      items as strings in order, anything else has no tenants. */
  function NormalizeTenants(candidate: Value): (r: seq<string>)
    ensures candidate.VStr? ==> r == [candidate.s]
    ensures !candidate.VStr? && !candidate.VList? ==> r == []
  {
    match candidate
    case VStr(s) => [s]
    case VList(xs) => ScalarTenants(xs)
    case _ => []
  }

  /** The tenants are exactly the stringified scalar items, and there are
      no more tenants than items. */
  lemma {:induction false} TenantsFromScalars(xs: seq<Value>)
    ensures |ScalarTenants(xs)| <= |xs|
    ensures forall t :: t in ScalarTenants(xs) <==> exists i :: 0 <= i < |xs| && IsTenantScalar(xs[i]) && ToStr(xs[i]) == t
  {
    if xs != [] {
      var n := |xs| - 1;
      TenantsFromScalars(xs[..n]);
      forall t
        ensures t in ScalarTenants(xs) <==> exists i :: 0 <= i < |xs| && IsTenantScalar(xs[i]) && ToStr(xs[i]) == t
      {
        if t in ScalarTenants(xs) {
          if t in ScalarTenants(xs[..n]) {
            var i :| 0 <= i < n && IsTenantScalar(xs[..n][i]) && ToStr(xs[..n][i]) == t;
            assert xs[..n][i] == xs[i];
          } else {
            assert IsTenantScalar(xs[n]) && ToStr(xs[n]) == t;
          }
        }
        if exists i :: 0 <= i < |xs| && IsTenantScalar(xs[i]) && ToStr(xs[i]) == t {
          var i :| 0 <= i < |xs| && IsTenantScalar(xs[i]) && ToStr(xs[i]) == t;
          if i < n {
            assert xs[..n][i] == xs[i];
            assert t in ScalarTenants(xs[..n]);
          }
        }
      }
    }
  }

  /** The tenants of two lists one after the other are the first list's
      tenants followed by the second's: the items keep their order. */
  lemma {:induction false} ScalarTenantsAppend(xs: seq<Value>, ys: seq<Value>)
    ensures ScalarTenants(xs + ys) == ScalarTenants(xs) + ScalarTenants(ys)
  {
    if ys == [] {
      assert xs + ys == xs;
    } else {
      var n := |ys| - 1;
      ScalarTenantsAppend(xs, ys[..n]);
      assert (xs + ys)[..|xs + ys| - 1] == xs + ys[..n];
    }
  }

  /** A single item gives its string form when it is a str, int or float,
      and nothing otherwise. */
  lemma ScalarTenantsOne(x: Value)
    ensures ScalarTenants([x]) == if IsTenantScalar(x) then [ToStr(x)] else []
  {
    assert [x][..0] == [];
  }

  /** A mixed list: `[1, "a"]` gives the tenants `["1", "a"]`. */
  lemma MixedTenantsStringified()
    ensures NormalizeTenants(VList([VInt(1), VStr("a")])) == ["1", "a"]
  {
    ScalarTenantsOne(VInt(1));
    ScalarTenantsOne(VStr("a"));
    ScalarTenantsAppend([VInt(1)], [VStr("a")]);
    assert [VInt(1)] + [VStr("a")] == [VInt(1), VStr("a")];
  }

  /** A list of strings is kept as it is, in order. */
  lemma {:induction false} StringTenantsKept(xs: seq<Value>)
    requires forall i :: 0 <= i < |xs| ==> xs[i].VStr?
    ensures |ScalarTenants(xs)| == |xs|
    ensures forall i :: 0 <= i < |xs| ==> ScalarTenants(xs)[i] == xs[i].s
  {
    if xs != [] {
      var n := |xs| - 1;
      StringTenantsKept(xs[..n]);
      assert forall i :: 0 <= i < n ==> xs[..n][i] == xs[i];
    }
  }

  // ---------------------------------------------------------------------
  // Reply extraction
  // ---------------------------------------------------------------------

  /** The text one part contributes: its `text`, or else `root.text` when
      `root` is a dict; nothing for a falsy text or a part that is not a dict. */
  function PartText(part: Value): Option<string> {
    if !part.VDict? then None
    else
      var text := Get(part.fields, "text", VNone);
      var root := Get(part.fields, "root", VNone);
      var candidate := if !Truthy(text) && root.VDict? then Get(root.fields, "text", VNone) else text;
      if Truthy(candidate) then Some(ToStr(candidate)) else None
  }

  function PartTexts(parts: seq<Value>): seq<string> {
    if parts == [] then []
    else
      var acc := PartTexts(parts[..|parts| - 1]);
      var t := PartText(parts[|parts| - 1]);
      if t.Some? then acc + [t.value] else acc
  }

  /** `sep.join(texts)`. */
  function Join(texts: seq<string>, sep: string): string {
    if texts == [] then ""
    else if |texts| == 1 then texts[0]
    else Join(texts[..|texts| - 1], sep) + sep + texts[|texts| - 1]
  }

  /** What `for part in parts` visits, as far as the text goes: a list's
      items, a string's characters; a dict's keys are strings and never
      contribute, so they are not listed. Other values raise. */
  function PartItems(parts: Value): Option<seq<Value>> {
    if parts.VDict? then Some([]) else Iter(parts)
  }

  /** `_combine_parts`: the part texts joined by newlines and stripped; ""
      for anything but a dict. */
  function CombinePartsSpec(messageObj: Value): Result<string> {
    if !messageObj.VDict? then Ok("")
    else match PartItems(Or(Get(messageObj.fields, "parts", VNone), VList([])))
      case None => Fault
      case Some(items) => Ok(Strip(Join(PartTexts(items), "\n")))
  }

  /** The dicts of a list, in order. */
  function DictsOf(xs: seq<Value>): (r: seq<Value>)
    ensures |r| <= |xs|
  {
    if xs == [] then []
    else
      var acc := DictsOf(xs[..|xs| - 1]);
      if xs[|xs| - 1].VDict? then acc + [xs[|xs| - 1]] else acc
  }

  /** The dicts kept are exactly the dict items. */
  lemma {:induction false} DictsOfExact(xs: seq<Value>)
    ensures forall v :: v in DictsOf(xs) <==> v in xs && v.VDict?
  {
    if xs != [] {
      var n := |xs| - 1;
      DictsOfExact(xs[..n]);
      assert xs == xs[..n] + [xs[n]];
      forall v
        ensures v in DictsOf(xs) <==> v in xs && v.VDict?
      {
        assert v in xs <==> v in xs[..n] || v == xs[n];
      }
    }
  }

  /** Keeping the dicts commutes with concatenation, so they keep their order. */
  lemma {:induction false} DictsOfAppend(xs: seq<Value>, ys: seq<Value>)
    ensures DictsOf(xs + ys) == DictsOf(xs) + DictsOf(ys)
  {
    if ys == [] {
      assert xs + ys == xs;
    } else {
      var n := |ys| - 1;
      DictsOfAppend(xs, ys[..n]);
      assert (xs + ys)[..|xs + ys| - 1] == xs + ys[..n];
    }
  }

  /** The candidates `_extract_reply_from_result` tries, in order: the result,
      its `latest_output_message` when a dict, then the dicts in `messages`. */
  function Candidates(resultObj: map<string, Value>): (cs: seq<Value>)
    ensures |cs| >= 1 && cs[0] == VDict(resultObj)
    ensures var latest := Get(resultObj, "latest_output_message", VNone);
      latest.VDict? ==> |cs| >= 2 && cs[1] == latest
    ensures var latest := Get(resultObj, "latest_output_message", VNone);
      var messages := Get(resultObj, "messages", VNone);
      var rest := if latest.VDict? then 2 else 1;
      |cs| >= rest && cs[rest..] == (if messages.VList? then DictsOf(messages.items) else [])
  {
    var latest := Get(resultObj, "latest_output_message", VNone);
    var messages := Get(resultObj, "messages", VNone);
    [VDict(resultObj)] + (if latest.VDict? then [latest] else []) + (if messages.VList? then DictsOf(messages.items) else [])
  }

  /** What each candidate combines to, in order. */
  function Combined(candidates: seq<Value>): (rs: seq<Result<string>>)
    ensures |rs| == |candidates|
    ensures forall i :: 0 <= i < |candidates| ==> rs[i] == CombinePartsSpec(candidates[i])
  {
    if candidates == [] then [] else [CombinePartsSpec(candidates[0])] + Combined(candidates[1..])
  }

  /** The first non-empty text, or "" when there is none; an error stops the search. */
  function FirstNonEmpty(rs: seq<Result<string>>): Result<string> {
    if rs == [] then Ok("")
    else match rs[0]
      case Fault => Fault
      case Ok(t) => if t != "" then Ok(t) else FirstNonEmpty(rs[1..])
  }

  function ExtractReplySpec(resultObj: Value): Result<string> {
    if !resultObj.VDict? then Ok("") else FirstNonEmpty(Combined(Candidates(resultObj.fields)))
  }

  /** A found text is one of the results, and every result before it is "". */
  lemma {:induction false} FirstNonEmptyIsFirst(rs: seq<Result<string>>)
    requires FirstNonEmpty(rs).Ok? && FirstNonEmpty(rs).value != ""
    ensures exists i :: (0 <= i < |rs| && rs[i] == FirstNonEmpty(rs)
                         && forall j :: 0 <= j < i ==> rs[j] == Ok(""))
  {
    if rs[0] == Ok("") {
      var rest := rs[1..];
      FirstNonEmptyIsFirst(rest);
      var i :| 0 <= i < |rest| && rest[i] == FirstNonEmpty(rest)
        && forall j :: 0 <= j < i ==> rest[j] == Ok("");
      assert rs[i + 1] == rest[i];
      forall j | 0 <= j < i + 1
        ensures rs[j] == Ok("")
      {
        if j > 0 {
          assert rs[j] == rest[j - 1];
        }
      }
    } else {
      assert rs[0] == FirstNonEmpty(rs);
    }
  }

  /** The search gives "" exactly when every result is "", so the reply of
      a candidate list is "" only when every candidate combines to "". */
  lemma {:induction false} FirstNonEmptyEmptyIff(rs: seq<Result<string>>)
    ensures FirstNonEmpty(rs) == Ok("") <==> forall i :: 0 <= i < |rs| ==> rs[i] == Ok("")
  {
    if rs != [] {
      FirstNonEmptyEmptyIff(rs[1..]);
      assert forall i :: 1 <= i < |rs| ==> rs[i] == rs[1..][i - 1];
    }
  }

  /** The result's own parts win when they give a text. */
  lemma ReplyPrefersResult(resultObj: map<string, Value>, own: string)
    requires CombinePartsSpec(VDict(resultObj)) == Ok(own) && own != ""
    ensures ExtractReplySpec(VDict(resultObj)) == Ok(own)
  {
    var rs := Combined(Candidates(resultObj));
    assert rs[0] == Ok(own);
  }

  /** A single part with a non-empty text gives that text, stripped. */
  lemma SingleTextPart(text: string)
    requires text != ""
    ensures CombinePartsSpec(VDict(map["parts" := VList([VDict(map["text" := VStr(text)])])])) == Ok(Strip(text))
  {
    var m := map["text" := VStr(text)];
    var part := VDict(m);
    assert PartText(part) == Some(text) by {
      assert Get(m, "text", VNone) == VStr(text);
    }
    assert PartTexts([part]) == [text] by {
      assert [part][..0] == [];
    }
    var obj := map["parts" := VList([part])];
    assert PartItems(Or(Get(obj, "parts", VNone), VList([]))) == Some([part]);
    assert Join([text], "\n") == text;
  }

  // ---------------------------------------------------------------------
  // Headers to the orchestrator
  // ---------------------------------------------------------------------

  /** `str.capitalize()` of a string whose lower case is "bearer". */
  const Bearer := "Bearer"

  /** The scheme of the `Authorization` header: the stored token type
      (default "bearer") stripped, spelled "Bearer" when it is bearer in any
      case, verbatim otherwise (RFC 6750 section 2.1 names the scheme "Bearer"). */
  function AuthScheme(tokenType: string): string {
    var t := Strip(if tokenType == "" then "bearer" else tokenType);
    if Lower(t) == "bearer" then Bearer else t
  }

  /** The headers `_send_rpc` sends for a session. */
  function Headers(session: SessionData): (h: map<string, string>)
    ensures h.Keys == {"Authorization", "X-User-Email"}
    ensures h["X-User-Email"] == session.user.email
  {
    map["Authorization" := AuthScheme(session.tokenType) + " " + session.token, "X-User-Email" := session.user.email]
  }

  /** Any spelling of bearer, with or without surrounding white space, and
      the empty token type all become "Bearer"; any other type is kept stripped. */
  lemma AuthSchemeCases(tokenType: string)
    ensures tokenType == "" ==> AuthScheme(tokenType) == Bearer
    ensures Lower(Strip(tokenType)) == "bearer" ==> AuthScheme(tokenType) == Bearer
    ensures tokenType != "" && Lower(Strip(tokenType)) != "bearer" ==> AuthScheme(tokenType) == Strip(tokenType)
  {
    if tokenType == "" {
      assert Strip("bearer") == "bearer" by {
        assert !IsSpace("bearer"[0]) && !IsSpace("bearer"[5]);
        assert LStrip("bearer") == "bearer";
        assert RStrip("bearer") == "bearer";
      }
      assert Lower("bearer") == "bearer";
    }
  }

  /** The header the client sends comes apart, in the policy plugin, into
      the scheme "Bearer" and the session's token. */
  lemma BearerHeaderReachesPlugin(session: SessionData, state: map<string, Value>)
    requires Lower(Strip(session.tokenType)) == "bearer" && session.token != []
    requires IamPolicy.RawToken(state) == VStr(Headers(session)["Authorization"])
    requires !Truthy(Get(state, "user_jwt_scheme", VNone))
    ensures IamPolicy.ExtractUserContext(state).jwtScheme == VStr(Bearer)
    ensures IamPolicy.ExtractUserContext(state).jwtToken == VStr(session.token)
  {
    AuthSchemeCases(session.tokenType);
    assert ' ' !in Bearer;
    IamPolicy.HeaderSplitRoundTrip(state, Bearer, session.token);
  }

  // ---------------------------------------------------------------------
  // Sessions and endpoints
  // ---------------------------------------------------------------------

  function Lookup(sessions: map<string, SessionData>, id: string): Option<SessionData> {
    if id in sessions then Some(sessions[id]) else None
  }

  /** `_extract_session`: an empty cookie means no session. */
  function SessionFor(sessions: map<string, SessionData>, cookie: string): Option<SessionData> {
    if cookie == "" then None else Lookup(sessions, cookie)
  }

  /** `login`: the outcome and the session to store under the new id.
      `tokenReply` is the outcome of `_request_jwt_token` for the
      credentials and `profileFor` that of `_request_jwt_profile` for a
      token: the parsed JSON, or the `HttpError` those helpers raise (the
      server's own status of 400 or above, 502 for a failed request or a
      body that is not JSON). */
  function LoginSpec(tokenReply: Response<Value>, profileFor: string -> Response<Value>)
    : (Response<LoginResponse>, Option<SessionData>)
  {
    match tokenReply
    case HttpError(s, d) => (HttpError(s, d), None)
    case Crash => (Crash, None)
    case Reply(payload) =>
      if !payload.VDict? then (Crash, None)
      else
        var accessToken := Get(payload.fields, "access_token", VNone);
        var tokenType := ToStr(Or(Get(payload.fields, "token_type", VNone), VStr("bearer")));
        if !Truthy(accessToken) then (HttpError(502, NoToken), None)
        else match profileFor(ToStr(accessToken))
          case HttpError(s, d) => (HttpError(s, d), None)
          case Crash => (Crash, None)
          case Reply(user) =>
            if !user.VDict? then (Crash, None)
            else
              var email := Get(user.fields, "email", VNone);
              var tenants := NormalizeTenants(Get(user.fields, "tenant", VNone));
              if !Truthy(email) then (HttpError(502, NoProfile), None)
              else if !email.VStr? || !accessToken.VStr? then (Crash, None)
              else
                var profile := UserProfile(email.s, tenants);
                (Reply(LoginResponse(accessToken.s, tokenType, profile)), Some(SessionData(accessToken.s, tokenType, profile)))
  }

  /** Login succeeds exactly when a session is issued; the session holds the
      token, the token type ("bearer" when none is given) and the profile's
      e-mail; a token answer without a token, or a profile without an
      e-mail, is a 502. */
  lemma LoginOutcomes(tokenReply: Response<Value>, profileFor: string -> Response<Value>)
    ensures var (r, s) := LoginSpec(tokenReply, profileFor); r.Reply? <==> s.Some?
    ensures var (r, s) := LoginSpec(tokenReply, profileFor);
      r.Reply? ==> (tokenReply.Reply? && tokenReply.body.VDict?
                    && Get(tokenReply.body.fields, "access_token", VNone) == VStr(s.value.token) && s.value.token != []
                    && s.value == SessionData(r.body.accessToken, r.body.tokenType, r.body.user)
                    && (!Truthy(Get(tokenReply.body.fields, "token_type", VNone)) ==> s.value.tokenType == "bearer")
                    && s.value.user.email != [])
    ensures tokenReply.Reply? && tokenReply.body.VDict? && !Truthy(Get(tokenReply.body.fields, "access_token", VNone))
      ==> LoginSpec(tokenReply, profileFor).0 == HttpError(502, NoToken)
  {
  }

  /** What `send_message` makes of the orchestrator's JSON answer: the
      reply found under `result` (or else `root.result`), with a fixed
      text when none is found. */
  function ReplyOf(answer: Response<Value>): Response<ChatResponse> {
    match answer
    case HttpError(s, d) => HttpError(s, d)
    case Crash => Crash
    case Reply(body) =>
      if !body.VDict? then Crash
      else
        var top := Get(body.fields, "result", VNone);
        var root := Get(body.fields, "root", VDict(map[]));
        if !Truthy(top) && !root.VDict? then Crash
        else
          var resultObj := if Truthy(top) then top else Get(root.fields, "result", VNone);
          var reply := if Truthy(resultObj) then ExtractReplySpec(resultObj) else Ok("");
          if reply.Fault? then Crash
          else Reply(ChatResponse(if reply.value == "" then Unreadable else reply.value, body.fields))
  }

  /** `send_message` as a function of the session map and `rpc`, the
      outcome of `_send_rpc` for the stripped message and the headers: the
      parsed JSON answer, or the 502 `HttpError` it raises for a failed
      request, any status of 400 or above and a body that is not JSON. */
  function SendMessageSpec(sessions: map<string, SessionData>, cookie: string, message: string,
                           rpc: (string, map<string, string>) -> Response<Value>): Response<ChatResponse>
  {
    var session := SessionFor(sessions, cookie);
    if session.None? then HttpError(401, LoginRequired)
    else if Strip(message) == "" then HttpError(400, EmptyMessage)
    else ReplyOf(rpc(Strip(message), Headers(session.value)))
  }

  /** Without a session the answer is 401 whatever the message; with one, a
      blank message is 400 without asking the orchestrator, and any other
      message is sent stripped, with the session's headers. */
  lemma SendMessageGuards(sessions: map<string, SessionData>, cookie: string, message: string,
                          rpc: (string, map<string, string>) -> Response<Value>)
    ensures SessionFor(sessions, cookie).None? ==> SendMessageSpec(sessions, cookie, message, rpc) == HttpError(401, LoginRequired)
    ensures SessionFor(sessions, cookie).Some? && (forall i :: 0 <= i < |message| ==> IsSpace(message[i]))
      ==> SendMessageSpec(sessions, cookie, message, rpc) == HttpError(400, EmptyMessage)
    ensures SessionFor(sessions, cookie).Some? && (exists i :: 0 <= i < |message| && !IsSpace(message[i]))
      ==> SendMessageSpec(sessions, cookie, message, rpc) == ReplyOf(rpc(Strip(message), Headers(SessionFor(sessions, cookie).value)))
  {
  }

  /** A reply is never empty: without a text the fixed message stands in. */
  lemma ReplyNeverEmpty(answer: Response<Value>)
    ensures ReplyOf(answer).Reply? ==> ReplyOf(answer).body.reply != ""
  {
  }

  /** A truthy top-level `result` is used before `root.result`; without one,
      `root.result` is used. Either way its non-empty text is the reply. */
  lemma ReplyPrefersTopLevel(body: map<string, Value>, t: string)
    requires t != ""
    ensures Truthy(Get(body, "result", VNone)) && ExtractReplySpec(Get(body, "result", VNone)) == Ok(t)
      ==> ReplyOf(Reply(VDict(body))) == Reply(ChatResponse(t, body))
    ensures var root := Get(body, "root", VDict(map[]));
      !Truthy(Get(body, "result", VNone)) && root.VDict? && Truthy(Get(root.fields, "result", VNone))
      && ExtractReplySpec(Get(root.fields, "result", VNone)) == Ok(t)
      ==> ReplyOf(Reply(VDict(body))) == Reply(ChatResponse(t, body))
  {
  }

  /** The process-wide session map `_SESSIONS`. */
  class SessionStore {
    var sessions: map<string, SessionData>

    constructor ()
      ensures sessions == map[]
    {
      sessions := map[];
    }

    method SetSession(id: string, data: SessionData)
      modifies this
      ensures sessions == old(sessions)[id := data]
    {
      sessions := sessions[id := data];
    }

    method GetSession(id: string) returns (r: Option<SessionData>)
      ensures r.Some? <==> id in sessions
      ensures r.Some? ==> r.value == sessions[id]
    {
      r := if id in sessions then Some(sessions[id]) else None;
    }

    /** `pop(id, None)`: deleting an absent id changes nothing. */
    method DeleteSession(id: string)
      modifies this
      ensures sessions == old(sessions) - {id}
      ensures id !in old(sessions) ==> sessions == old(sessions)
    {
      sessions := sessions - {id};
    }

    method ExtractSession(cookie: string) returns (id: string, r: Option<SessionData>)
      ensures id == cookie && r == SessionFor(sessions, cookie)
    {
      if cookie == "" {
        return "", None;
      }
      id := cookie;
      r := GetSession(cookie);
    }

    /** `login`: on success the new session is stored under `sessionId` (a
        `secrets.token_urlsafe` value); on failure nothing changes. */
    method Login(tokenReply: Response<Value>, profileFor: string -> Response<Value>, sessionId: string)
      returns (r: Response<LoginResponse>)
      modifies this
      ensures r == LoginSpec(tokenReply, profileFor).0
      ensures var s := LoginSpec(tokenReply, profileFor).1;
        sessions == if s.Some? then old(sessions)[sessionId := s.value] else old(sessions)
    {
      var outcome := LoginSpec(tokenReply, profileFor);
      r := outcome.0;
      if outcome.1.Some? {
        SetSession(sessionId, outcome.1.value);
      }
    }

    /** `logout`: drops the cookie's session, if any. */
    method Logout(cookie: string)
      modifies this
      ensures sessions == if cookie == "" then old(sessions) else old(sessions) - {cookie}
    {
      var id, _ := ExtractSession(cookie);
      if id != "" {
        DeleteSession(id);
      }
    }

    /** `session_info`: 401 without a session. */
    method SessionInfo(cookie: string) returns (r: Response<LoginResponse>)
      ensures SessionFor(sessions, cookie).None? <==> r == HttpError(401, LoginRequired)
      ensures r.Reply? ==> var s := SessionFor(sessions, cookie).value;
        r.body == LoginResponse(s.token, s.tokenType, s.user)
    {
      var _, session := ExtractSession(cookie);
      if session.None? {
        return HttpError(401, LoginRequired);
      }
      var s := session.value;
      return Reply(LoginResponse(s.token, s.tokenType, s.user));
    }

    /** `send_message`. */
    method SendMessage(cookie: string, message: string, rpc: (string, map<string, string>) -> Response<Value>)
      returns (r: Response<ChatResponse>)
      ensures r == SendMessageSpec(sessions, cookie, message, rpc)
    {
      var _, session := ExtractSession(cookie);
      if session.None? {
        return HttpError(401, LoginRequired);
      }
      var text := Strip(message);
      if text == "" {
        return HttpError(400, EmptyMessage);
      }
      r := ReplyFrom(rpc(text, Headers(session.value)));
    }
  }

  /** The reply `send_message` builds from the orchestrator's answer. */
  method ReplyFrom(answer: Response<Value>) returns (r: Response<ChatResponse>)
    ensures r == ReplyOf(answer)
  {
    if !answer.Reply? {
      return if answer.Crash? then Crash else HttpError(answer.status, answer.detail);
    }
    if !answer.body.VDict? {
      return Crash;
    }
    var fields := answer.body.fields;
    var resultObj := Get(fields, "result", VNone);
    if !Truthy(resultObj) {
      var root := Get(fields, "root", VDict(map[]));
      if !root.VDict? {
        return Crash;
      }
      resultObj := Get(root.fields, "result", VNone);
    }
    var reply: Result<string> := Ok("");
    if Truthy(resultObj) {
      reply := ExtractReply(resultObj);
    }
    if reply.Fault? {
      return Crash;
    }
    return Reply(ChatResponse(if reply.value == "" then Unreadable else reply.value, fields));
  }

  /** `_combine_parts`. */
  method CombineParts(messageObj: Value) returns (r: Result<string>)
    ensures r == CombinePartsSpec(messageObj)
  {
    if !messageObj.VDict? {
      return Ok("");
    }
    var items := PartItems(Or(Get(messageObj.fields, "parts", VNone), VList([])));
    if items.None? {
      return Fault;
    }
    var parts := items.value;
    var texts: seq<string> := [];
    var i := 0;
    while i < |parts|
      invariant 0 <= i <= |parts|
      invariant texts == PartTexts(parts[..i])
    {
      assert parts[..i + 1][..i] == parts[..i];
      var t := PartText(parts[i]);
      if t.Some? {
        texts := texts + [t.value];
      }
      i := i + 1;
    }
    assert parts[..i] == parts;
    return Ok(Strip(Join(texts, "\n")));
  }

  /** `_extract_reply_from_result`. */
  method ExtractReply(resultObj: Value) returns (r: Result<string>)
    ensures r == ExtractReplySpec(resultObj)
  {
    if !resultObj.VDict? {
      return Ok("");
    }
    var candidates: seq<Value> := [resultObj];
    var latest := Get(resultObj.fields, "latest_output_message", VNone);
    if latest.VDict? {
      candidates := candidates + [latest];
    }
    var messages := Get(resultObj.fields, "messages", VNone);
    if messages.VList? {
      ghost var base := candidates;
      var k := 0;
      while k < |messages.items|
        invariant 0 <= k <= |messages.items|
        invariant candidates == base + DictsOf(messages.items[..k])
      {
        assert messages.items[..k + 1][..k] == messages.items[..k];
        if messages.items[k].VDict? {
          candidates := candidates + [messages.items[k]];
        }
        k := k + 1;
      }
      assert messages.items[..k] == messages.items;
    }
    assert candidates == Candidates(resultObj.fields);
    r := FirstOf(candidates);
  }

  /** Tries the candidates in order. */
  method FirstOf(candidates: seq<Value>) returns (r: Result<string>)
    ensures r == FirstNonEmpty(Combined(candidates))
  {
    ghost var rs := Combined(candidates);
    var i := 0;
    while i < |candidates|
      invariant 0 <= i <= |candidates|
      invariant FirstNonEmpty(rs) == FirstNonEmpty(rs[i..])
    {
      var text := CombineParts(candidates[i]);
      assert rs[i..][0] == text;
      if text.Fault? {
        return Fault;
      }
      if text.value != "" {
        return text;
      }
      assert rs[i..][1..] == rs[i + 1..];
      i := i + 1;
    }
    return Ok("");
  }
}
