/**
 * server/ws.ts: the registry `botConnections` from bot identity to its live
 * WebSocket, and `notifyBot`. A socket is a `Connection` object whose state
 * the transport moves and whose `outbox` records what `send` put on the wire.
 */
module Ws {
  import opened Optional
  import opened Json

  /** `WebSocket.readyState`. */
  datatype ReadyState = Connecting | Open | Closing | Closed

  /** The `{ type, payload }` object `notifyBot` serialises and sends. */
  datatype Message = Message(kind: string, payload: Json)

  /** A query parameter `botId` that `if (botId)` accepts: present and non-empty. */
  predicate IsBotId(query: Option<string>) {
    query.Some? && query.value != ""
  }

  class Connection {
    /** `url.searchParams.get("botId")` of the upgrade request. */
    const query: Option<string>
    var state: ReadyState
    /** Every message sent on this socket, oldest first. */
    var outbox: seq<Message>

    /** A socket as handed to the `connection` handler. */
    constructor (query: Option<string>)
      ensures this.query == query && state == Open && outbox == []
    {
      this.query := query;
      state := Open;
      outbox := [];
    }
  }

  class Registry {
    var botConnections: map<string, Connection>

    constructor ()
      ensures botConnections == map[]
    {
      botConnections := map[];
    }

    /** The socket registered for `botId`, as a frame. */
    function Handle(botId: string): (h: set<Connection>)
      reads this
      ensures botId in botConnections <==> h != {}
    {
      if botId in botConnections then {botConnections[botId]} else {}
    }

    /** The `connection` handler: register a socket that names a bot, replacing any earlier one. */
    method OnConnection(ws: Connection)
      modifies this
      ensures IsBotId(ws.query) ==> botConnections == old(botConnections)[ws.query.value := ws]
      ensures !IsBotId(ws.query) ==> botConnections == old(botConnections)
    {
      if IsBotId(ws.query) {
        botConnections := botConnections[ws.query.value := ws];
      }
    }

    /**
     * The socket's `close` event: the transport marks it closed and, for a
     * socket that named a bot, the entry of that bot is deleted whichever
     * socket is registered for it now.
     */
    method OnClose(ws: Connection)
      modifies this, ws`state
      ensures ws.state == Closed
      ensures IsBotId(ws.query) ==> botConnections == old(botConnections) - {ws.query.value}
      ensures !IsBotId(ws.query) ==> botConnections == old(botConnections)
    {
      ws.state := Closed;
      if IsBotId(ws.query) {
        botConnections := botConnections - {ws.query.value};
      }
    }

    /** `notifyBot`: send `{type, payload}` to the bot's socket when it is open; report whether it was sent. */
    method NotifyBot(botId: string, kind: string, payload: Json) returns (sent: bool)
      modifies Handle(botId)
      ensures botConnections == old(botConnections)
      ensures sent <==> botId in botConnections && old(botConnections[botId].state) == Open
      ensures botId in botConnections ==>
        botConnections[botId].state == old(botConnections[botId].state) &&
        botConnections[botId].outbox == old(botConnections[botId].outbox) + (if sent then [Message(kind, payload)] else [])
    {
      if botId in botConnections {
        var ws := botConnections[botId];
        if ws.state == Open {
          ws.outbox := ws.outbox + [Message(kind, payload)];
          return true;
        }
      }
      return false;
    }
  }

  /**
   * A reconnect followed by the delayed close of the old socket leaves the bot
   * unreachable: the stale close drops the newer registration, and a later
   * notification is not delivered although the new socket is open.
   */
  method StaleCloseScenario(botId: string) returns (registered: bool, delivered: bool, newOutbox: seq<Message>)
    requires botId != ""
    ensures !registered && !delivered && newOutbox == []
  {
    var registry := new Registry();
    var first := new Connection(Some(botId));
    registry.OnConnection(first);
    var second := new Connection(Some(botId));
    registry.OnConnection(second);
    assert registry.botConnections[botId] == second;
    registry.OnClose(first);
    registered := botId in registry.botConnections;
    delivered := registry.NotifyBot(botId, "session_saved", JObject(map["success" := JBool(true)]));
    newOutbox := second.outbox;
  }

  /** On the current open socket a notification is delivered once, exactly as given. */
  method DeliveryScenario(botId: string, kind: string, payload: Json) returns (delivered: bool, outbox: seq<Message>, undelivered: bool, closingOutbox: seq<Message>)
    requires botId != ""
    ensures delivered && outbox == [Message(kind, payload)]
    ensures !undelivered && closingOutbox == outbox
  {
    var registry := new Registry();
    var ws := new Connection(Some(botId));
    registry.OnConnection(ws);
    delivered := registry.NotifyBot(botId, kind, payload);
    outbox := ws.outbox;
    ws.state := Closing;
    undelivered := registry.NotifyBot(botId, kind, payload);
    closingOutbox := ws.outbox;
  }
}
