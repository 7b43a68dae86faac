/**
 * The request schemas of shared/schema.ts as validity predicates, and the
 * parse of a JSON request body against them (what `schema.parse(req.body)`
 * accepts; unknown keys are stripped, as by `z.object`).
 */
module Schema {
  import opened Optional
  import opened Json

  /** `PairingCodeRequest`: `expiresIn` is a duration in seconds. */
  datatype PairingCodeRequest = PairingCodeRequest(botId: string, pairingCode: string, expiresIn: int)

  /** `SessionRequest`: `auth` is the bot's opaque authentication state. */
  datatype SessionRequest = SessionRequest(botId: string, auth: Json)

  /** `pairingCodeSchema`: non-empty `botId` and `pairingCode`, positive `expiresIn`. */
  predicate ValidPairingCodeRequest(r: PairingCodeRequest) {
    |r.botId| >= 1 && |r.pairingCode| >= 1 && r.expiresIn > 0
  }

  /** `sessionSchema`: non-empty `botId`, `auth` a record. */
  predicate ValidSessionRequest(r: SessionRequest) {
    |r.botId| >= 1 && IsRecord(r.auth)
  }

  /** The string held under `key` of a JSON object, if any. */
  function StringField(body: Json, key: string): Option<string> {
    if body.JObject? && key in body.fields && body.fields[key].JString? then Some(body.fields[key].s) else None
  }

  /** `pairingCodeSchema.parse(body)`, with `None` for a `ZodError`. */
  function ParsePairingCodeRequest(body: Json): (r: Option<PairingCodeRequest>)
    ensures r.Some? ==> ValidPairingCodeRequest(r.value)
    ensures r.Some? ==> StringField(body, "botId") == Some(r.value.botId)
    ensures r.Some? ==> StringField(body, "pairingCode") == Some(r.value.pairingCode)
    ensures r.Some? ==> body.JObject? && "expiresIn" in body.fields && body.fields["expiresIn"] == JNumber(r.value.expiresIn)
  {
    if body.JObject? && "expiresIn" in body.fields && body.fields["expiresIn"].JNumber? then
      match (StringField(body, "botId"), StringField(body, "pairingCode"))
      case (Some(id), Some(code)) =>
        var req := PairingCodeRequest(id, code, body.fields["expiresIn"].n);
        if ValidPairingCodeRequest(req) then Some(req) else None
      case _ => None
    else None
  }

  /** `sessionSchema.parse(body)`, with `None` for a `ZodError`. */
  function ParseSessionRequest(body: Json): (r: Option<SessionRequest>)
    ensures r.Some? ==> ValidSessionRequest(r.value)
    ensures r.Some? ==> StringField(body, "botId") == Some(r.value.botId)
    ensures r.Some? ==> body.JObject? && "auth" in body.fields && body.fields["auth"] == r.value.auth
  {
    if body.JObject? && "auth" in body.fields then
      match StringField(body, "botId")
      case Some(id) =>
        var req := SessionRequest(id, body.fields["auth"]);
        if ValidSessionRequest(req) then Some(req) else None
      case None => None
    else None
  }

  /** The JSON body a bot sends to relay a pairing code. */
  function PairingCodeBody(r: PairingCodeRequest): Json {
    JObject(map["botId" := JString(r.botId), "pairingCode" := JString(r.pairingCode), "expiresIn" := JNumber(r.expiresIn)])
  }

  /** The JSON body a bot sends to upload its session. */
  function SessionBody(r: SessionRequest): Json {
    JObject(map["botId" := JString(r.botId), "auth" := r.auth])
  }

  /** A relay body is accepted exactly when the request it carries is valid, and then parses back to it. */
  lemma ParsePairingCodeBody(r: PairingCodeRequest)
    ensures ParsePairingCodeRequest(PairingCodeBody(r)) == if ValidPairingCodeRequest(r) then Some(r) else None
  {
    var body := PairingCodeBody(r);
    assert StringField(body, "botId") == Some(r.botId);
    assert StringField(body, "pairingCode") == Some(r.pairingCode);
  }

  /** An upload body is accepted exactly when the request it carries is valid, and then parses back to it. */
  lemma ParseSessionBody(r: SessionRequest)
    ensures ParseSessionRequest(SessionBody(r)) == if ValidSessionRequest(r) then Some(r) else None
  {
    var body := SessionBody(r);
    assert StringField(body, "botId") == Some(r.botId);
  }
}
