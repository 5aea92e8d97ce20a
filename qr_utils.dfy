/**
 * The QR credential codec: the printed text is `<prefix>.<token>`, where the
 * token is an HS256 JWT over a payload that fixes `iat` and `exp` itself so
 * that the same inputs always give the same token. Signing, verification and
 * SHA-256 are supplied by the caller as functions.
 */
module QrUtils {
  import opened Wrappers
  import opened Strings
  import opened Js
  import opened Common

  const DefaultPrefix: string := "APSC2026"

  /** `jwt.sign(payload, secret, { algorithm: "HS256", noTimestamp: true })` */
  type Signer = (JsValue, string) -> string
  /** `jwt.verify(token, secret)` at a given time: the payload, or `None` when it throws. */
  type Verifier = (string, string, int) -> Option<JsValue>

  /** `process.env.QR_PREFIX || "APSC2026"` */
  function Prefix(vars: Vars): (p: string)
    ensures p != ""
    ensures !("QR_PREFIX" in vars && vars["QR_PREFIX"] != "") ==> p == DefaultPrefix
  {
    EnvOr(vars, "QR_PREFIX", DefaultPrefix)
  }

  /** `buildQrText(token)` */
  function BuildQrText(vars: Vars, token: string): (text: string)
    ensures StartsWith(text, Prefix(vars) + ".")
    ensures |text| == |Prefix(vars)| + 1 + |token|
  {
    Prefix(vars) + "." + token
  }

  /** `parseQrText(qrText)`: the token after `<prefix>.`, or `None`. */
  function ParseQrText(vars: Vars, qrText: JsValue): (r: Option<string>)
    ensures r.Some? <==> qrText.Str? && StartsWith(qrText.s, Prefix(vars) + ".")
    ensures r.Some? ==> qrText.s == Prefix(vars) + "." + r.value
  {
    var prefix := Prefix(vars) + ".";
    if !Truthy(qrText) || !qrText.Str? || !StartsWith(qrText.s, prefix) then None
    else Some(qrText.s[|prefix|..])
  }

  /** Parsing the printed text gives back the token. */
  lemma ParseBuild(vars: Vars, token: string)
    ensures ParseQrText(vars, Str(BuildQrText(vars, token))) == Some(token)
  {
    var text := BuildQrText(vars, token);
    assert text[|Prefix(vars) + "."|..] == token;
  }

  /** Non-strings, "" and text without the prefix are refused. */
  lemma ParseRejects(vars: Vars, v: JsValue)
    requires !v.Str? || v.s == "" || !StartsWith(v.s, Prefix(vars) + ".")
    ensures ParseQrText(vars, v) == None
  {
  }

  /** `makeJti()`: 16 random bytes as hex. */
  function MakeJti(bytes: Bytes16): (jti: string)
    ensures |jti| == 32
    ensures forall i :: 0 <= i < |jti| ==> IsHexChar(jti[i])
  {
    Hex(bytes)
  }

  /** The token payload `createQrJwtToken` signs. */
  function QrPayload(registrationKey: string, registrationId: JsValue, conferenceType: JsValue,
                     jti: string, issuedAt: int, expiresAt: Option<int>): JsValue
  {
    var base := map[
      "sub" := Str(registrationKey),
      "rid" := Str(ToStr(registrationId)),
      "ct" := Str(ToStr(Or(conferenceType, Str("")))),
      "jti" := Str(jti),
      "iat" := Num(SecondsOf(issuedAt) as real)];
    match expiresAt
    case None => Obj(base)
    case Some(e) => Obj(base["exp" := Num(SecondsOf(e) as real)])
  }

  /** The payload's claims: `sub`, `rid` and `ct` as strings (`ct` is "" without
      a conference type), the `jti`, `iat` in whole seconds and `exp` only when
      there is an expiry; there is no `registrationId` claim. */
  lemma QrPayloadFields(registrationKey: string, registrationId: JsValue, conferenceType: JsValue,
                        jti: string, issuedAt: int, expiresAt: Option<int>)
    ensures var p := QrPayload(registrationKey, registrationId, conferenceType, jti, issuedAt, expiresAt);
            && p.Obj?
            && Get(p, "sub") == Str(registrationKey)
            && Get(p, "rid") == Str(ToStr(registrationId))
            && Get(p, "ct") == (if Truthy(conferenceType) then Str(ToStr(conferenceType)) else Str(""))
            && Get(p, "jti") == Str(jti)
            && Get(p, "iat") == Num(SecondsOf(issuedAt) as real)
            && ("exp" in p.fields <==> expiresAt.Some?)
            && (expiresAt.Some? ==> Get(p, "exp") == Num(SecondsOf(expiresAt.value) as real))
            && "registrationId" !in p.fields
  {
  }

  /** `createQrJwtToken(...)`: fails when QR_SIGNING_SECRET is unset; otherwise
      the token depends on nothing but the payload and the secret. */
  function CreateQrJwtToken(vars: Vars, sign: Signer, registrationKey: string, registrationId: JsValue,
                            conferenceType: JsValue, jti: string, issuedAt: int, expiresAt: Option<int>): (r: Outcome<string>)
    ensures r.Err? <==> MustEnv(vars, "QR_SIGNING_SECRET").Err?
    ensures r.Err? ==> r.error == ScriptError("Error", "Missing env var: QR_SIGNING_SECRET")
    ensures r.Ok? ==> r.value == sign(QrPayload(registrationKey, registrationId, conferenceType, jti, issuedAt, expiresAt),
                                      vars["QR_SIGNING_SECRET"])
  {
    var secret :- MustEnv(vars, "QR_SIGNING_SECRET");
    Ok(sign(QrPayload(registrationKey, registrationId, conferenceType, jti, issuedAt, expiresAt), secret))
  }

  /** `verifyQrJwtToken(token)`: the payload, or the error that verification throws. */
  function VerifyQrJwtToken(vars: Vars, verify: Verifier, token: string, now: int): (r: Outcome<JsValue>)
    ensures MustEnv(vars, "QR_SIGNING_SECRET").Err? ==> r.Err?
    ensures r.Ok? ==> Some(r.value) == verify(token, vars["QR_SIGNING_SECRET"], now)
  {
    var secret :- MustEnv(vars, "QR_SIGNING_SECRET");
    match verify(token, secret, now)
    case Some(payload) => Ok(payload)
    case None => Err(ScriptError("JsonWebTokenError", "invalid token"))
  }
}
