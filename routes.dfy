/**
 * server/routes.ts: the request handlers of `registerRoutes`, each a method of
 * the composition root `Server` over its storage and its connection registry.
 * An HTTP reply is a status and a JSON body.
 */
module Routes {
  import opened Optional
  import opened Json
  import opened Schema
  import opened Storage
  import opened Ws

  datatype Body =
    | Note(message: string)
    | Pairing(code: string, expiresAt: int, expiresInSeconds: int)
    | Auth(blob: Json)
    | Names(names: seq<string>)

  datatype Response = Response(status: int, body: Body)

  const InvalidInput := Response(400, Note("Invalid input"))
  const PairingNotFound := Response(404, Note("No active pairing code found for this Bot ID"))
  const SessionConflict := Response(409, Note("Session already exists. Delete it first."))
  const SessionNotFound := Response(404, Note("Session not found"))

  const SavedPayload := JObject(map["success" := JBool(true)])
  const DeletedPayload := JObject(map["action" := JString("reset")])

  /** `Math.max(0, Math.floor((expiresAt - now) / 1000))`: whole seconds left, rounded down. */
  function ExpiresInSeconds(expiresAt: int, now: int): (r: nat)
    ensures now <= expiresAt ==> r * 1000 <= expiresAt - now < r * 1000 + 1000
    ensures now > expiresAt ==> r == 0
  {
    // Dafny's division by a positive divisor rounds down, as Math.floor does.
    var q := (expiresAt - now) / 1000;
    if q < 0 then 0 else q
  }

  /** The stored value `getSession` returns, as `if (session)` reads it. */
  predicate HasSession(files: map<string, Json>, botId: string) {
    SessionFileName(botId) in files && Truthy(files[SessionFileName(botId)])
  }

  /** The identity whose socket an upload body may notify. */
  function UploadTarget(body: Json): string {
    match ParseSessionRequest(body)
    case Some(req) => req.botId
    case None => ""
  }

  class Server {
    const storage: FileStorage
    const registry: Registry

    constructor (directory: map<string, Json>)
      ensures fresh(storage) && fresh(registry)
      ensures storage.pairingCodes == map[] && storage.sessionFiles == directory
      ensures registry.botConnections == map[]
    {
      storage := new FileStorage(directory);
      registry := new Registry();
    }

    /** The messages the registered socket of `botId` has been sent so far. */
    function Outbox(botId: string): seq<Message>
      reads registry, registry.Handle(botId)
    {
      if botId in registry.botConnections then registry.botConnections[botId].outbox else []
    }

    /** The registered socket of `botId` is open. */
    predicate CanDeliver(botId: string)
      reads registry, registry.Handle(botId)
    {
      botId in registry.botConnections && registry.botConnections[botId].state == Open
    }

    /** POST /api/pair: validate the body and store the code, replacing any earlier one. */
    method RelayPairingCode(body: Json, now: int) returns (res: Response)
      modifies storage`pairingCodes
      ensures ParsePairingCodeRequest(body).None? ==>
        res == InvalidInput && storage.pairingCodes == old(storage.pairingCodes)
      ensures ParsePairingCodeRequest(body).Some? ==>
        var input := ParsePairingCodeRequest(body).value;
        res == Response(200, Note("Pairing code stored")) &&
        storage.pairingCodes == old(storage.pairingCodes)[input.botId := NewEntry(input, now)]
    {
      var parsed := ParsePairingCodeRequest(body);
      if parsed.None? {
        return InvalidInput;
      }
      var input := parsed.value;
      storage.StorePairingCode(input, now);
      return Response(200, Note("Pairing code stored"));
    }

    /**
     * GET /api/pair/:botId. The storage reads the clock at `now`; the handler
     * reads it again at `later` to compute the seconds left.
     */
    method GetPairingCode(botId: string, now: int, later: int) returns (res: Response)
      modifies storage`pairingCodes
      ensures botId !in old(storage.pairingCodes) ==>
        res == PairingNotFound && storage.pairingCodes == old(storage.pairingCodes)
      ensures botId in old(storage.pairingCodes) && !Live(old(storage.pairingCodes)[botId], now) ==>
        res == PairingNotFound && storage.pairingCodes == old(storage.pairingCodes) - {botId}
      ensures botId in old(storage.pairingCodes) && Live(old(storage.pairingCodes)[botId], now) ==>
        var e := old(storage.pairingCodes)[botId];
        res == Response(200, Pairing(e.code, e.expiresAt, ExpiresInSeconds(e.expiresAt, later))) &&
        storage.pairingCodes == old(storage.pairingCodes)
    {
      var data := storage.GetPairingCode(botId, now);
      if data.None? {
        return PairingNotFound;
      }
      var seconds := ExpiresInSeconds(data.value.expiresAt, later);
      return Response(200, Pairing(data.value.code, data.value.expiresAt, seconds));
    }

    /**
     * POST /api/session: create-only. A session the bot's key already holds is
     * a conflict; otherwise the blob is saved and the bot is told, and the
     * reply does not depend on whether the notification was delivered.
     */
    method UploadSession(body: Json) returns (res: Response)
      modifies storage`sessionFiles, registry.Handle(UploadTarget(body))
      ensures registry.botConnections == old(registry.botConnections)
      ensures UploadTarget(body) in registry.botConnections ==>
        registry.botConnections[UploadTarget(body)].state == old(registry.botConnections[UploadTarget(body)].state)
      ensures ParseSessionRequest(body).None? ==>
        res == InvalidInput && storage.sessionFiles == old(storage.sessionFiles) &&
        unchanged(registry.Handle(UploadTarget(body)))
      ensures ParseSessionRequest(body).Some? && HasSession(old(storage.sessionFiles), UploadTarget(body)) ==>
        res == SessionConflict && storage.sessionFiles == old(storage.sessionFiles) &&
        unchanged(registry.Handle(UploadTarget(body)))
      ensures ParseSessionRequest(body).Some? && !HasSession(old(storage.sessionFiles), UploadTarget(body)) ==>
        var input := ParseSessionRequest(body).value;
        res == Response(200, Note("Session stored successfully")) &&
        storage.sessionFiles == old(storage.sessionFiles)[SessionFileName(input.botId) := input.auth] &&
        Outbox(input.botId) == old(Outbox(input.botId)) +
          (if old(CanDeliver(input.botId)) then [Message("session_saved", SavedPayload)] else [])
    {
      var parsed := ParseSessionRequest(body);
      if parsed.None? {
        return InvalidInput;
      }
      var input := parsed.value;
      var existing := storage.GetSession(input.botId);
      if existing.Some? && Truthy(existing.value) {
        return SessionConflict;
      }
      storage.SaveSession(input);
      var _ := registry.NotifyBot(input.botId, "session_saved", SavedPayload);
      return Response(200, Note("Session stored successfully"));
    }

    /** GET /api/session/:botId: the stored blob verbatim, or 404. */
    method RestoreSession(botId: string) returns (res: Response)
      ensures HasSession(storage.sessionFiles, botId) ==>
        res == Response(200, Auth(storage.sessionFiles[SessionFileName(botId)]))
      ensures !HasSession(storage.sessionFiles, botId) ==> res == SessionNotFound
    {
      var session := storage.GetSession(botId);
      if !(session.Some? && Truthy(session.value)) {
        return SessionNotFound;
      }
      return Response(200, Auth(session.value));
    }

    /** DELETE /api/session/:botId: 404 when there is no session; otherwise delete it and tell the bot to reset. */
    method DeleteSession(botId: string) returns (res: Response)
      modifies storage`sessionFiles, registry.Handle(botId)
      ensures registry.botConnections == old(registry.botConnections)
      ensures botId in registry.botConnections ==>
        registry.botConnections[botId].state == old(registry.botConnections[botId].state)
      ensures !HasSession(old(storage.sessionFiles), botId) ==>
        res == SessionNotFound && storage.sessionFiles == old(storage.sessionFiles) &&
        unchanged(registry.Handle(botId))
      ensures HasSession(old(storage.sessionFiles), botId) ==>
        res == Response(200, Note("Session deleted")) &&
        storage.sessionFiles == old(storage.sessionFiles) - {SessionFileName(botId)} &&
        Outbox(botId) == old(Outbox(botId)) +
          (if old(CanDeliver(botId)) then [Message("session_deleted", DeletedPayload)] else [])
    {
      var session := storage.GetSession(botId);
      if !(session.Some? && Truthy(session.value)) {
        return SessionNotFound;
      }
      storage.DeleteSession(botId);
      var _ := registry.NotifyBot(botId, "session_deleted", DeletedPayload);
      return Response(200, Note("Session deleted"));
    }

    /** GET /api/sessions: the names of the stored sessions. */
    method ListSessions() returns (res: Response)
      ensures res.status == 200 && res.body.Names?
      ensures forall n :: n in res.body.names <==> n in StoredNames(storage.sessionFiles)
    {
      var sessions := storage.ListSessions();
      return Response(200, Names(sessions));
    }
  }

  /** Every stored session value is a record, as `sessionSchema` lets through. */
  predicate RecordsOnly(files: map<string, Json>) {
    forall f :: f in files ==> IsRecord(files[f])
  }

  /** In a directory of records, "has a session" is "has a file". */
  lemma HasSessionOfRecords(files: map<string, Json>, botId: string)
    requires RecordsOnly(files)
    ensures HasSession(files, botId) <==> SessionFileName(botId) in files
  {
    if SessionFileName(botId) in files {
      RecordIsTruthy(files[SessionFileName(botId)]);
    }
  }

  /** An accepted upload keeps a directory of records one. */
  lemma UploadKeepsRecords(files: map<string, Json>, input: SessionRequest)
    requires RecordsOnly(files) && ValidSessionRequest(input)
    ensures RecordsOnly(files[SessionFileName(input.botId) := input.auth])
  {
  }

  /**
   * The session lifecycle of one bot: upload, a second upload is a conflict,
   * delete, upload again, and the restore returns the latest blob.
   */
  method SessionLifecycleScenario(first: Json, second: Json) returns (r1: Response, r2: Response, r3: Response, r4: Response, r5: Response)
    requires IsRecord(first) && IsRecord(second)
    ensures r1.status == 200 && r2 == SessionConflict && r3.status == 200 && r4.status == 200
    ensures r5 == Response(200, Auth(second))
  {
    var server := new Server(map[]);
    var upload1 := SessionBody(SessionRequest("b1", first));
    var upload2 := SessionBody(SessionRequest("b1", second));
    ParseSessionBody(SessionRequest("b1", first));
    ParseSessionBody(SessionRequest("b1", second));
    RecordIsTruthy(first);
    RecordIsTruthy(second);
    r1 := server.UploadSession(upload1);
    r2 := server.UploadSession(upload2);
    r3 := server.DeleteSession("b1");
    r4 := server.UploadSession(upload2);
    r5 := server.RestoreSession("b1");
  }

  /** Saving `b1` and `b2` and deleting `b1` leaves exactly `b2` listed. */
  method ListScenario(blob: Json) returns (r: Response)
    requires IsRecord(blob)
    ensures r.status == 200 && r.body.Names?
    ensures forall n :: n in r.body.names <==> n == "b2"
  {
    var server := new Server(map[]);
    ParseSessionBody(SessionRequest("b1", blob));
    ParseSessionBody(SessionRequest("b2", blob));
    RecordIsTruthy(blob);
    var _ := server.UploadSession(SessionBody(SessionRequest("b1", blob)));
    var _ := server.UploadSession(SessionBody(SessionRequest("b2", blob)));
    var _ := server.DeleteSession("b1");
    r := server.ListSessions();
    SanitizeFixed("b1");
    SanitizeFixed("b2");
    assert SessionFileName("b2") in server.storage.sessionFiles;
    assert server.storage.sessionFiles.Keys == {SessionFileName("b2")};
    RemoveJsonOfSessionFileName("b2");
  }

  /** A code relayed at `t` for 30 s is served at `t + 30000` and gone at `t + 31000`. */
  method PairingScenario(t: int) returns (within: Response, after: Response)
    ensures within == Response(200, Pairing("123456", t + 30000, 0))
    ensures after == PairingNotFound
  {
    var server := new Server(map[]);
    var request := PairingCodeRequest("b1", "123456", 30);
    ParsePairingCodeBody(request);
    var _ := server.RelayPairingCode(PairingCodeBody(request), t);
    within := server.GetPairingCode("b1", t + 30000, t + 30000);
    after := server.GetPairingCode("b1", t + 31000, t + 31000);
  }
}
