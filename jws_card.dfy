/** The agent-card signing service (jws-server/jws.py): `/sign` issues a
    JWT (RFC 7519), signed as a JWS compact serialization (RFC 7515 section
    7.1), whose `card_hash` claim is the SHA-256 of the card without its
    `signatures`; `/verify` checks a token and, when a card or a hash comes
    with it, that the hash matches. Canonical serialisation with SHA-256,
    signing, decoding, the clock, the token id and the random ETag suffix
    are parameters. */
module JwsCard {
  import opened PyValue

  /** The uninterpreted primitives: `digest` is the hex SHA-256 of a value's
      canonical JSON bytes, `encode` signs claims with a header, and
      `decode` checks a token and gives its claims or the error text. */
  datatype Crypto = Crypto(
    digest: Value -> string,
    encode: (map<string, Value>, map<string, Value>) -> string,
    decode: string -> Decoded)

  datatype Decoded = Claims(claims: map<string, Value>) | JwtError(message: string)

  /** The environment variables the service reads. */
  type Env = map<string, string>

  /** What the caller cannot choose: the current time in whole seconds,
      the token id and the random ETag suffix. */
  datatype Moment = Moment(now: int, jti: string, short: string)

  /** The claims `/sign` puts in a token. */
  datatype Payload = Payload(
    iss: Value, sub: string, iat: int, exp: int, jti: string,
    cardHash: string, versionId: Value, etag: Value, policyVersion: Value)

  datatype Signed = Signed(jws: string, payload: Payload)
  datatype Verified = Verified(valid: bool, payload: map<string, Value>, hashVerified: bool)

  const SubRequired := "'sub' is required"
  const CardRequired := "'card' or 'card_hash' is required"
  const JwsRequired := "'jws' is required"
  const MissingCardHash := "TOKEN_MISSING_CARD_HASH"
  const CardHashMismatch := "CARD_HASH_MISMATCH"

  const DefaultIssuer := "ans-registry.example"
  const DefaultPolicyVersion := "registry.policy.v3"
  const DefaultKid := "registry-hs256-key-1"
  const DefaultVersion := 1
  const DefaultTtl := 600
  /** The POSIX time of `datetime.max` in UTC, 9999-12-31T23:59:59Z: a later
      expiry makes the `datetime` addition raise `OverflowError`. */
  const MaxTimestamp := 253402300799

  function EnvOr(env: Env, name: string, default: string): string {
    if name in env then env[name] else default
  }

  /** `_card_material_for_hash`: the card without `signatures`, a new value
      (the caller's card is never changed). */
  function CardMaterial(card: map<string, Value>): (m: map<string, Value>)
    ensures "signatures" !in m
    ensures forall k :: k != "signatures" ==> (k in m <==> k in card) && (k in m ==> m[k] == card[k])
  {
    card - {"signatures"}
  }

  /** `_sha256_prefixed(_canonical_bytes(material))`. */
  function CardHash(crypto: Crypto, card: map<string, Value>): string {
    "sha256:" + crypto.digest(VDict(CardMaterial(card)))
  }

  /** The hash a request carries: from `card` when it is a dict, else the
      `card_hash` string, else none. Signing and verifying use the same rule. */
  function HashOf(crypto: Crypto, body: map<string, Value>): (h: Option<string>)
    ensures Get(body, "card", VNone).VDict? ==> h == Some(CardHash(crypto, Get(body, "card", VNone).fields))
    ensures !Get(body, "card", VNone).VDict? ==>
      (h.Some? <==> Get(body, "card_hash", VNone).VStr?) && (h.Some? ==> h.value == Get(body, "card_hash", VNone).s)
  {
    var card := Get(body, "card", VNone);
    var given := Get(body, "card_hash", VNone);
    if card.VDict? then Some(CardHash(crypto, card.fields))
    else if given.VStr? then Some(given.s)
    else None
  }

  /** The hash of a card does not depend on its signatures. */
  lemma HashIgnoresSignatures(crypto: Crypto, card: map<string, Value>, signatures: Value)
    ensures CardHash(crypto, card["signatures" := signatures]) == CardHash(crypto, card)
    ensures CardHash(crypto, card - {"signatures"}) == CardHash(crypto, card)
  {
    assert CardMaterial(card["signatures" := signatures]) == CardMaterial(card);
    assert CardMaterial(card - {"signatures"}) == CardMaterial(card);
  }

  /** `version_id`: the given int (a bool counts), else 1. */
  function VersionOf(body: map<string, Value>): (v: Value)
    ensures IsInt(v)
    ensures IsInt(Get(body, "version_id", VNone)) ==> v == Get(body, "version_id", VNone)
    ensures !IsInt(Get(body, "version_id", VNone)) ==> v == VInt(DefaultVersion)
  {
    var given := Get(body, "version_id", VNone);
    if IsInt(given) then given else VInt(DefaultVersion)
  }

  /** The lifetime in seconds: the given positive int, else 600. */
  function TtlOf(body: map<string, Value>): (ttl: int)
    ensures ttl > 0
    ensures var given := Get(body, "exp_seconds", VNone);
      (IsInt(given) && IntOf(given) > 0 ==> ttl == IntOf(given))
      && (!(IsInt(given) && IntOf(given) > 0) ==> ttl == DefaultTtl)
  {
    var given := Get(body, "exp_seconds", VNone);
    if IsInt(given) && IntOf(given) > 0 then IntOf(given) else DefaultTtl
  }

  /** `W/"<version>-<short>"`, a weak entity tag (RFC 9110 section 8.8.3). */
  function WeakEtag(version: Value, short: string): string {
    "W/\"" + ToStr(version) + "-" + short + "\""
  }

  /** The payload as the JSON object that is signed. */
  function ToClaims(p: Payload): map<string, Value> {
    map["iss" := p.iss, "sub" := VStr(p.sub), "iat" := VInt(p.iat), "exp" := VInt(p.exp),
        "jti" := VStr(p.jti), "version_id" := p.versionId, "etag" := p.etag,
        "policy_version" := p.policyVersion, "card_hash" := VStr(p.cardHash)]
  }

  lemma ClaimsCarryHash(p: Payload)
    ensures Get(ToClaims(p), "card_hash", VNone) == VStr(p.cardHash)
  {
  }

  /** The JWS protected header: the key id asked for, or the configured one. */
  function Header(b: map<string, Value>, env: Env): map<string, Value> {
    map["kid" := Or(Get(b, "kid", VNone), VStr(EnvOr(env, "JWS_KID", DefaultKid)))]
  }

  /** `/sign`. The clock reads `moment.now` plus a fraction of a second, so
      the expiry overflows exactly when `moment.now + ttl` is past
      `MaxTimestamp`; the exception escapes as a crash. */
  function Sign(body: Value, env: Env, moment: Moment, crypto: Crypto): Response<Signed> {
    if !body.VDict? then Crash
    else
      var b := body.fields;
      var iss := Or(Get(b, "iss", VNone), VStr(EnvOr(env, "JWS_ISS", DefaultIssuer)));
      var sub := Get(b, "sub", VNone);
      var version := VersionOf(b);
      var policyVersion := Or(Get(b, "policy_version", VNone), VStr(EnvOr(env, "POLICY_VERSION", DefaultPolicyVersion)));
      var ttl := TtlOf(b);
      var cardHash := HashOf(crypto, b);
      if !sub.VStr? || Strip(sub.s) == "" then HttpError(422, SubRequired)
      else if cardHash.None? || cardHash.value == "" then HttpError(422, CardRequired)
      else if moment.now + ttl > MaxTimestamp then Crash
      else
        var etag := Or(Get(b, "etag", VNone), VStr(WeakEtag(version, moment.short)));
        var payload := Payload(iss, sub.s, moment.now, moment.now + ttl, moment.jti, cardHash.value, version, etag, policyVersion);
        Reply(Signed(crypto.encode(ToClaims(payload), Header(b, env)), payload))
  }

  /** The checks of `/sign`, in order: a blank or missing `sub` is refused
      whatever the card, then a missing card and hash, and an expiry past
      `datetime`'s range crashes. */
  lemma SignChecks(body: map<string, Value>, env: Env, moment: Moment, crypto: Crypto)
    ensures var sub := Get(body, "sub", VNone);
      !sub.VStr? || (forall i :: 0 <= i < |sub.s| ==> IsSpace(sub.s[i])) ==> Sign(VDict(body), env, moment, crypto) == HttpError(422, SubRequired)
    ensures var sub := Get(body, "sub", VNone);
      sub.VStr? && (exists i :: 0 <= i < |sub.s| && !IsSpace(sub.s[i])) ==>
        (Sign(VDict(body), env, moment, crypto).Reply? <==>
           HashOf(crypto, body).Some? && HashOf(crypto, body).value != "" && moment.now + TtlOf(body) <= MaxTimestamp)
    ensures var sub := Get(body, "sub", VNone);
      sub.VStr? && (exists i :: 0 <= i < |sub.s| && !IsSpace(sub.s[i]))
      && HashOf(crypto, body).Some? && HashOf(crypto, body).value != "" && moment.now + TtlOf(body) > MaxTimestamp ==>
        Sign(VDict(body), env, moment, crypto) == Crash
    ensures Sign(VDict(body), env, moment, crypto).HttpError? ==> Sign(VDict(body), env, moment, crypto).status == 422
  {
    var sub := Get(body, "sub", VNone);
    var r := Sign(VDict(body), env, moment, crypto);
    if !sub.VStr? || Strip(sub.s) == "" {
      assert r == HttpError(422, SubRequired);
    } else if HashOf(crypto, body).None? || HashOf(crypto, body).value == "" {
      assert r == HttpError(422, CardRequired);
    } else if moment.now + TtlOf(body) > MaxTimestamp {
      assert r == Crash;
    } else {
      assert r.Reply?;
    }
  }

  /** A signed payload carries the subject and hash asked for, expires
      `ttl` seconds after it was issued, within `datetime`'s range, and has the version and ETag the
      defaults give. */
  lemma SignedPayload(body: map<string, Value>, env: Env, moment: Moment, crypto: Crypto)
    requires Sign(VDict(body), env, moment, crypto).Reply?
    ensures var p := Sign(VDict(body), env, moment, crypto).body.payload;
      VStr(p.sub) == Get(body, "sub", VNone)
      && Some(p.cardHash) == HashOf(crypto, body)
      && p.iat == moment.now && p.exp == p.iat + TtlOf(body) && p.exp <= MaxTimestamp
      && p.versionId == VersionOf(body)
      && (!Truthy(Get(body, "etag", VNone)) ==> p.etag == VStr(WeakEtag(VersionOf(body), moment.short)))
      && (Truthy(Get(body, "etag", VNone)) ==> p.etag == Get(body, "etag", VNone))
  {
  }

  /** The token `/sign` returns encodes the payload's claims. */
  lemma SignedToken(body: map<string, Value>, env: Env, moment: Moment, crypto: Crypto)
    requires Sign(VDict(body), env, moment, crypto).Reply?
    ensures var signed := Sign(VDict(body), env, moment, crypto).body;
      signed.jws == crypto.encode(ToClaims(signed.payload), Header(body, env))
  {
  }

  /** `/verify`. Errors with a structured detail carry its `code`. */
  function Verify(data: Value, crypto: Crypto): Response<Verified> {
    if !data.VDict? then Crash
    else
      var token := Get(data.fields, "jws", VNone);
      if !token.VStr? || token.s == "" then HttpError(422, JwsRequired)
      else match crypto.decode(token.s)
        case JwtError(message) => HttpError(400, message)
        case Claims(claims) =>
          var expected := Get(claims, "card_hash", VNone);
          var provided := HashOf(crypto, data.fields);
          if provided.None? then Reply(Verified(true, claims, false))
          else if !expected.VStr? || expected.s == "" then HttpError(400, MissingCardHash)
          else if provided.value != expected.s then HttpError(400, CardHashMismatch)
          else Reply(Verified(true, claims, true))
  }

  /** The outcomes of `/verify` for a token that decodes: without a card or
      hash it is valid and unverified; with one, it is a missing-hash error
      when the token has no hash, a mismatch when they differ, and verified
      exactly when they are equal. */
  lemma VerifyOutcomes(data: map<string, Value>, crypto: Crypto, claims: map<string, Value>)
    requires Get(data, "jws", VNone).VStr? && Get(data, "jws", VNone).s != ""
    requires crypto.decode(Get(data, "jws", VNone).s) == Claims(claims)
    ensures var r := Verify(VDict(data), crypto);
      var provided := HashOf(crypto, data);
      var expected := Get(claims, "card_hash", VNone);
      (provided.None? ==> r == Reply(Verified(true, claims, false)))
      && (provided.Some? && (!expected.VStr? || expected.s == "") ==> r == HttpError(400, MissingCardHash))
      && (provided.Some? && expected.VStr? && expected.s != "" && provided.value != expected.s ==> r == HttpError(400, CardHashMismatch))
      && (r.Reply? ==> r.body.valid && r.body.payload == claims)
      && (r.Reply? && r.body.hashVerified <==> provided.Some? && expected == VStr(provided.value) && provided.value != "")
  {
  }

  /** A token is required before anything is decoded. */
  lemma VerifyNeedsToken(data: map<string, Value>, crypto: Crypto)
    requires !Get(data, "jws", VNone).VStr? || Get(data, "jws", VNone).s == ""
    ensures Verify(VDict(data), crypto) == HttpError(422, JwsRequired)
  {
  }

  /** A decodable token whose hash claim is the card's hash verifies with that card. */
  lemma VerifyMatchingCard(token: string, claims: map<string, Value>, card: map<string, Value>, crypto: Crypto)
    requires token != "" && crypto.decode(token) == Claims(claims)
    requires Get(claims, "card_hash", VNone) == VStr(CardHash(crypto, card))
    ensures Verify(VDict(map["jws" := VStr(token), "card" := VDict(card)]), crypto) == Reply(Verified(true, claims, true))
  {
    var data := map["jws" := VStr(token), "card" := VDict(card)];
    assert Get(data, "jws", VNone) == VStr(token);
    assert HashOf(crypto, data) == Some(CardHash(crypto, card));
  }

  /** Signing a card and verifying the token with the same card, with or
      without its signatures, verifies the hash, given that decoding the
      signed token gives back its claims. */
  lemma SignThenVerify(body: map<string, Value>, env: Env, moment: Moment, crypto: Crypto, signatures: Value)
    requires Get(body, "card", VNone).VDict?
    requires Sign(VDict(body), env, moment, crypto).Reply?
    requires var p := ToClaims(Sign(VDict(body), env, moment, crypto).body.payload);
      var token := crypto.encode(p, Header(body, env));
      token != "" && crypto.decode(token) == Claims(p)
    ensures var card := Get(body, "card", VNone).fields;
      var signed := Sign(VDict(body), env, moment, crypto).body;
      Verify(VDict(map["jws" := VStr(signed.jws), "card" := VDict(card)]), crypto)
        == Reply(Verified(true, ToClaims(signed.payload), true))
      && Verify(VDict(map["jws" := VStr(signed.jws), "card" := VDict(card["signatures" := signatures])]), crypto)
        == Reply(Verified(true, ToClaims(signed.payload), true))
  {
    var card := Get(body, "card", VNone).fields;
    var signed := Sign(VDict(body), env, moment, crypto).body;
    var claims := ToClaims(signed.payload);
    SignedToken(body, env, moment, crypto);
    assert signed.jws != "" && crypto.decode(signed.jws) == Claims(claims);
    SignedPayload(body, env, moment, crypto);
    assert signed.payload.cardHash == CardHash(crypto, card);
    ClaimsCarryHash(signed.payload);
    HashIgnoresSignatures(crypto, card, signatures);
    VerifyMatchingCard(signed.jws, ToClaims(signed.payload), card, crypto);
    VerifyMatchingCard(signed.jws, ToClaims(signed.payload), card["signatures" := signatures], crypto);
  }
}
