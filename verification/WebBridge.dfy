/** The embeddable gateway (pkg/transport/wsweb.go), the second implementation
    of the same endpoint, and its agreement with the hub. */
module WebBridge {
  import opened Wrappers
  import opened Text
  import opened RpcTypes
  import opened RouteHints
  import opened Dispatch
  import opened Pending

  datatype WsError = WsError(code: int, message: string)

  /** Unlike the hub's envelope, ids are strings, empty when missing or null. */
  datatype WsMessage = WsMessage(
    jsonrpc: string,
    id: string,
    methodName: string,
    params: Option<Json>,
    result: Option<Json>,
    error: Option<WsError>)

  datatype WsPacket = WsBroken(validJson: bool) | WsEnvelope(msg: WsMessage)

  /** What a handler returns: raw JSON (None for nil), raw text that is not
      JSON, a *WebError, or another error. */
  datatype WsOutcome = WsReturned(result: Option<Json>) | WsBadText | WsFailed(err: WsError) | WsOther(text: string)

  type WsTable = map<string, Json -> WsOutcome>

  /** marshalWsResp falls back to an error without an id. */
  const MarshalFallback: WsMessage :=
    WsMessage(VERSION, "", "", None, None, Some(WsError(INTERNAL_ERROR, "internal error")))

  function WsInvalid(id: string): WsMessage {
    WsMessage(VERSION, id, "", None, None, Some(WsError(INVALID_REQUEST, "invalid request")))
  }

  // ----- reference -----

  /** The answer to a request that asks for one. */
  function WsAnswer(table: WsTable, msg: WsMessage): WsMessage {
    var m := TrimSpace(msg.methodName);
    if msg.jsonrpc != VERSION || m == "" then WsInvalid(msg.id)
    else if m == HEARTBEAT then WsMessage(VERSION, msg.id, "", None, Some(Obj(map[])), None)
    else if m !in table then
      WsMessage(VERSION, msg.id, "", None, None, Some(WsError(METHOD_NOT_FOUND, "method " + m + " not registered")))
    else
      match table[m](if msg.params.Some? then msg.params.value else Obj(map[]))
      case WsReturned(result) => WsMessage(VERSION, msg.id, "", None, result, None)
      case WsBadText => MarshalFallback
      case WsFailed(err) => WsMessage(VERSION, msg.id, "", None, None, Some(err))
      case WsOther(_) => WsMessage(VERSION, msg.id, "", None, None, Some(WsError(INTERNAL_ERROR, "internal error")))
  }

  predicate WsNotification(msg: WsMessage) {
    TrimSpace(msg.id) == ""
  }

  /** What the bridge writes for one message. */
  function WsWrittenFor(table: WsTable, p: WsPacket): Option<WsMessage> {
    match p
    case WsBroken(valid) =>
      Some(WsMessage(VERSION, "", "", None, None,
        Some(WsError(ClassifyDecodeError(valid), if valid then "invalid request" else "parse error"))))
    case WsEnvelope(msg) =>
      if msg.methodName != "" then (if WsNotification(msg) then None else Some(WsAnswer(table, msg)))
      else if msg.result.Some? || msg.error.Some? || WsNotification(msg) then None
      else Some(WsInvalid(msg.id))
  }

  // ----- the connection -----

  function WsCheckVersion(msg: WsMessage): WsMessage {
    if msg.jsonrpc == VERSION then msg
    else msg.(error := Some(WsError(INVALID_REQUEST, "invalid response")), result := None)
  }

  class WebConn {
    const pending: PendingTable<WsMessage>
    var nextID: nat
    var written: seq<WsMessage>

    constructor ()
      ensures fresh(pending) && pending.Valid() && pending.entries == map[] && nextID == 0 && written == []
    {
      pending := new PendingTable<WsMessage>("");
      nextID, written := 0, [];
    }

    method Write(msg: WsMessage)
      modifies this`written
      ensures written == old(written) + [msg]
    {
      written := written + [msg];
    }

    /** Invoke up to its write. `writable` says whether the write succeeds; if
        not, the deferred delete takes the entry out again. */
    method SendRequest(methodName: string, payload: Option<Json>, writable: bool)
      returns (id: string, sent: Option<OneSlot<WsMessage>>)
      requires pending.Valid()
      modifies this`nextID, this`written, pending
      ensures pending.Valid() && nextID == old(nextID) + 1 && id == "s" + Decimal(nextID)
      ensures (sent.Some? <==> writable) && (sent.Some? ==> fresh(sent.value) && sent.value.content == None)
      ensures pending.entries == if sent.Some? then old(pending.entries)[id := sent.value] else old(pending.entries) - {id}
      ensures written == old(written) +
        if sent.Some? then
          [WsMessage(VERSION, id, methodName, Some(if payload.Some? then payload.value else Obj(map[])), None, None)]
        else []
    {
      nextID := nextID + 1;
      id := "s" + Decimal(nextID);
      var slot := pending.Register(id);
      if !writable {
        pending.Remove(id);
        return id, None;
      }
      Write(WsMessage(VERSION, id, methodName, Some(if payload.Some? then payload.value else Obj(map[])), None, None));
      sent := Some(slot);
    }

    /** handleResponse */
    method HandleResponse(msg: WsMessage)
      requires pending.Valid()
      modifies pending.entries.Values
      ensures pending.Valid() && pending.entries == old(pending.entries)
      ensures forall k :: k in pending.entries ==>
        pending.entries[k].content ==
          if k == msg.id then AfterSend(old(pending.entries[k].content), WsCheckVersion(msg))
          else old(pending.entries[k].content)
    {
      var checked := msg;
      if msg.jsonrpc != VERSION {
        checked := checked.(error := Some(WsError(INVALID_REQUEST, "invalid response")));
        checked := checked.(result := None);
      }
      pending.Deliver(Some(msg.id), checked);
    }

    /** handleRequest: fills the response in field by field. */
    method HandleRequest(table: WsTable, msg: WsMessage)
      modifies this`written
      ensures written == old(written) + if WsNotification(msg) then [] else [WsAnswer(table, msg)]
    {
      var isNotification := TrimSpace(msg.id) == "";
      var name := TrimSpace(msg.methodName);
      var resp := WsMessage(VERSION, msg.id, "", None, None, None);
      if msg.jsonrpc != VERSION || name == "" {
        if isNotification {
          return;
        }
        resp := resp.(error := Some(WsError(INVALID_REQUEST, "invalid request")));
        Write(resp);
        return;
      }
      if name == HEARTBEAT {
        if isNotification {
          return;
        }
        resp := resp.(result := Some(Obj(map[])));
        Write(resp);
        return;
      }
      var badText := false;
      if name !in table {
        if isNotification {
          return;
        }
        resp := resp.(error := Some(WsError(METHOD_NOT_FOUND, "method " + name + " not registered")));
      } else {
        var params := if msg.params.Some? then msg.params.value else Obj(map[]);
        var outcome := table[name](params);
        if isNotification {
          return;
        }
        match outcome {
          case WsFailed(err) => resp := resp.(error := Some(err));
          case WsOther(_) => resp := resp.(error := Some(WsError(INTERNAL_ERROR, "internal error")));
          case WsBadText => badText := true;
          case WsReturned(result) => resp := resp.(result := result);
        }
      }
      Write(if badText then MarshalFallback else resp);
    }

    /** One turn of the message loop. */
    method HandlePacket(table: WsTable, p: WsPacket)
      requires pending.Valid()
      modifies this`written, pending.entries.Values
      ensures pending.Valid() && pending.entries == old(pending.entries)
      ensures written == old(written) +
        match WsWrittenFor(table, p) case None => [] case Some(reply) => [reply]
      ensures forall k :: k in pending.entries ==>
        pending.entries[k].content ==
          if p.WsEnvelope? && p.msg.methodName == "" && (p.msg.result.Some? || p.msg.error.Some?) && k == p.msg.id
          then AfterSend(old(pending.entries[k].content), WsCheckVersion(p.msg))
          else old(pending.entries[k].content)
    {
      match p {
        case WsBroken(valid) =>
          var code, message := PARSE_ERROR, "parse error";
          if valid {
            code, message := INVALID_REQUEST, "invalid request";
          }
          Write(WsMessage(VERSION, "", "", None, None, Some(WsError(code, message))));
        case WsEnvelope(msg) =>
          if msg.methodName != "" {
            if msg.jsonrpc != VERSION {
              if TrimSpace(msg.id) == "" {
                return;
              }
              Write(WsInvalid(msg.id));
              return;
            }
            HandleRequest(table, msg);
          } else if msg.result.Some? || msg.error.Some? {
            HandleResponse(msg);
          } else if TrimSpace(msg.id) != "" {
            Write(WsInvalid(msg.id));
          }
      }
    }
  }

  // ----- the two dispatchers agree -----

  /** What an answer amounts to. */
  datatype Kind = Silence | ResultKind | ErrorKind(code: int) | EmptyReply

  function KindOf(m: Option<Message>): Kind {
    if m.None? then Silence
    else if m.value.error.Some? then ErrorKind(m.value.error.value.code)
    else ResultKind
  }

  function WsKindOf(m: Option<WsMessage>): Kind {
    if m.None? then Silence
    else if m.value.error.Some? then ErrorKind(m.value.error.value.code)
    else if m.value.result.Some? then ResultKind
    else EmptyReply
  }

  /** The same wire message, as each side decodes it: string ids or none. */
  predicate SameMessage(msg: Message, ws: WsMessage) {
    && msg.jsonrpc == ws.jsonrpc && msg.methodName == ws.methodName
    && msg.params == ws.params && msg.result == ws.result
    && (msg.error.Some? <==> ws.error.Some?)
    && (if HasID(msg.id) then DecodeStringID(msg.id) == Some(ws.id) else ws.id == "")
  }

  /** The bridge does not look at the kind of a frame: a binary one is decoded
      like any other. */
  predicate SamePacket(p: Packet, q: WsPacket) {
    match (p, q)
    case (Binary, _) => true
    case (Broken(v), WsBroken(w)) => v == w
    case (Envelope(msg), WsEnvelope(ws)) => SameMessage(msg, ws)
    case _ => false
  }

  /** Handlers that do the same: results that are not nil, errors with the same
      code, unencodable results alike; no cancellation. */
  predicate SameOutcome(o: Outcome, w: WsOutcome) {
    match (o, w)
    case (Returned(_), WsReturned(result)) => result.Some?
    case (Unencodable, WsBadText) => true
    case (Failed(err), WsFailed(e)) =>
      !err.canceled && !err.deadline && err.rpc.Some? && err.rpc.value.code == e.code
    case (Failed(err), WsOther(_)) => !err.canceled && !err.deadline && err.rpc.None?
    case _ => false
  }

  ghost predicate SameTables(table: Table, ws: WsTable) {
    && table.Keys == ws.Keys
    && forall m, params :: m in table ==> SameOutcome(table[m](params), ws[m](Obj(params)))
  }

  /** A request that both serve with their own handlers. */
  predicate InCommon(msg: Message) {
    var m := TrimSpace(msg.methodName);
    && m != LIST_PEERS && !HasPrefix(m, FAN_OUT)
    && (msg.params.None? || (msg.params.value.Obj? && ROUTING !in msg.params.value.fields && PEER !in msg.params.value.fields))
  }

  lemma LocalRoute(msg: Message)
    requires InCommon(msg) && msg.jsonrpc == VERSION
    requires TrimSpace(msg.methodName) != "" && TrimSpace(msg.methodName) != HEARTBEAT
    ensures ServerRoute(msg) ==
      Local(TrimSpace(msg.methodName), if msg.params.Some? then msg.params.value.fields else map[])
  {
    var m, params := TrimSpace(msg.methodName), if msg.params.Some? then msg.params.value.fields else map[];
    assert DecodeParams(msg.params) == Some(params);
    assert WithoutHints(params) == params;
    assert TrimSpace(m) == m;
  }

  function VerdictKind(v: Verdict): Kind {
    match v
    case Result(_) => ResultKind
    case Error(err) => ErrorKind(err.code)
  }

  lemma SameHandlerKind(o: Outcome, w: WsOutcome)
    requires SameOutcome(o, w)
    ensures VerdictKind(HandlerVerdict(o, MarshalPeerResult)) ==
      match w
      case WsReturned(_) => ResultKind
      case WsBadText => ErrorKind(INTERNAL_ERROR)
      case WsFailed(err) => ErrorKind(err.code)
      case WsOther(_) => ErrorKind(INTERNAL_ERROR)
  {
  }

  function LocalKind(table: Table, m: string, params: Params): Kind {
    if m in table then VerdictKind(HandlerVerdict(table[m](params), MarshalPeerResult)) else ErrorKind(METHOD_NOT_FOUND)
  }

  lemma HubKind(env: Surroundings, caller: string, ws: WsTable, msg: Message, m: string, params: Params)
    requires SameTables(env.table, ws) && !env.interrupted && HasID(msg.id) && ServerRoute(msg) == Local(m, params)
    ensures KindOf(ServerReply(env, caller, msg)) == LocalKind(env.table, m, params)
  {
    if m in env.table {
      assert SameOutcome(env.table[m](params), ws[m](Obj(params)));
    }
  }

  lemma BridgeKind(table: Table, ws: WsTable, wsMsg: WsMessage, m: string, params: Params)
    requires SameTables(table, ws) && m == TrimSpace(wsMsg.methodName)
    requires wsMsg.jsonrpc == VERSION && m != "" && m != HEARTBEAT
    requires wsMsg.params == Some(Obj(params)) || (wsMsg.params.None? && params == map[])
    ensures WsKindOf(Some(WsAnswer(ws, wsMsg))) == LocalKind(table, m, params)
  {
    if m in table {
      assert SameOutcome(table[m](params), ws[m](Obj(params)));
      SameHandlerKind(table[m](params), ws[m](Obj(params)));
    }
  }

  lemma SameAnswerKind(env: Surroundings, caller: string, ws: WsTable, msg: Message, wsMsg: WsMessage)
    requires SameTables(env.table, ws) && !env.interrupted && SameMessage(msg, wsMsg) && InCommon(msg)
    requires HasID(msg.id)
    ensures KindOf(ServerReply(env, caller, msg)) == WsKindOf(Some(WsAnswer(ws, wsMsg))) != Silence
  {
    var m := TrimSpace(msg.methodName);
    if msg.jsonrpc == VERSION && m != "" && m != HEARTBEAT {
      LocalRoute(msg);
      var params := if msg.params.Some? then msg.params.value.fields else map[];
      HubKind(env, caller, ws, msg, m, params);
      BridgeKind(env.table, ws, wsMsg, m, params);
    }
  }

  /** The bridge alone: a request is answered once and a notification never;
      the answer is a proper response with the request's id exactly when the
      handler's result, if it gets that far, is encodable and not nil. */
  lemma BridgeRepliesOnce(table: WsTable, msg: WsMessage)
    requires msg.methodName != ""
    ensures WsWrittenFor(table, WsEnvelope(msg)).Some? <==> !WsNotification(msg)
    ensures !WsNotification(msg) ==>
      var reply := WsAnswer(table, msg);
      var m := TrimSpace(msg.methodName);
      && WsWrittenFor(table, WsEnvelope(msg)) == Some(reply)
      && ((reply.id == msg.id && (reply.result.Some? <==> reply.error.None?)) <==>
          !(msg.jsonrpc == VERSION && m != "" && m != HEARTBEAT && m in table &&
            var o := table[m](if msg.params.Some? then msg.params.value else Obj(map[]));
            o == WsReturned(None) || o == WsBadText))
  {
  }

  /** For every request both serve, the two dispatchers give the same kind of
      outcome and the same error code, exactly when the id is missing, null, or
      a string that is not blank: a blank id is a request to the hub and a
      notification to the bridge. */
  lemma DispatchersAgreeOnRequests(env: Surroundings, caller: string, ws: WsTable, msg: Message, wsMsg: WsMessage)
    requires SameTables(env.table, ws) && !env.interrupted && SameMessage(msg, wsMsg) && InCommon(msg)
    requires msg.methodName != ""
    ensures KindOf(HubWrittenFor(env, caller, Envelope(msg))) == WsKindOf(WsWrittenFor(ws, WsEnvelope(wsMsg)))
      <==> (HasID(msg.id) ==> TrimSpace(wsMsg.id) != "")
  {
    if HasID(msg.id) {
      SameAnswerKind(env, caller, ws, msg, wsMsg);
    }
  }

  /** What the bridge has something to write for. */
  predicate BridgeAnswers(q: WsPacket) {
    match q
    case WsBroken(_) => true
    case WsEnvelope(msg) => !WsNotification(msg) && (msg.methodName != "" || (msg.result.None? && msg.error.None?))
  }

  /** The same for everything else on the wire: broken frames, responses, bare
      ids, and binary frames, on which the two agree exactly when the content
      asks for no answer. */
  lemma DispatchersAgreeOnOthers(env: Surroundings, caller: string, ws: WsTable, p: Packet, q: WsPacket)
    requires SamePacket(p, q)
    requires p.Envelope? ==> p.msg.methodName == "" && (HasID(p.msg.id) ==> TrimSpace(q.msg.id) != "")
    ensures KindOf(HubWrittenFor(env, caller, p)) == WsKindOf(WsWrittenFor(ws, q))
      <==> (p.Binary? ==> !BridgeAnswers(q))
  {
    if p.Binary? && BridgeAnswers(q) {
      AnswerIsNotSilence(ws, q);
    }
  }

  lemma AnswerIsNotSilence(ws: WsTable, q: WsPacket)
    requires BridgeAnswers(q)
    ensures WsKindOf(WsWrittenFor(ws, q)) != Silence
  {
  }
}
