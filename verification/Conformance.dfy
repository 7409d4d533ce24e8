/** What each end writes and reads, written out in the protocol's own literals
    (sections 4 and 5 of JSON-RPC 2.0; pkg/holonrpc/client.go, server.go,
    routing.go, types.go; pkg/transport/wsweb.go). The reference definitions in
    Dispatch.dfy, RouteHints.dfy, RpcTypes.dfy and WebBridge.dfy are held to these
    forms, which use none of their branches and none of their constants. */
module Conformance {
  import opened Wrappers
  import opened Text
  import opened RpcTypes
  import opened RouteHints
  import opened WireFormat
  import opened Dispatch
  import opened ClientRuntime
  import opened ServerRuntime
  import opened WebBridge

  // ----- forms -----

  /** The id asks for an answer. */
  predicate Asks(id: string) {
    TrimSpace(id) != "" && TrimSpace(id) != "null"
  }

  function ResultForm(id: string, value: Json): Option<Message> {
    Some(Message("2.0", id, "", None, Some(value), None))
  }

  function ErrorForm(id: string, code: int, text: string, data: Json): Option<Message> {
    Some(Message("2.0", id, "", None, None, Some(ResponseError(code, text, data))))
  }

  function WsResultForm(id: string, result: Option<Json>): Option<WsMessage> {
    Some(WsMessage("2.0", id, "", None, result, None))
  }

  function WsErrorForm(id: string, code: int, text: string): Option<WsMessage> {
    Some(WsMessage("2.0", id, "", None, None, Some(WsError(code, text))))
  }

  /** A well-formed request for method m with params p, and not a built-in one of
      the hub's. */
  predicate Requests(msg: Message, m: string, p: Params) {
    && msg.jsonrpc == "2.0" && m == TrimSpace(msg.methodName) && m != "" && m != "rpc.heartbeat" && m != "rpc.peers"
    && (msg.params == Some(Obj(p)) || (p == map[] && (msg.params == None || msg.params == Some(Null))))
  }

  // ----- the hub's answers -----

  /** Neither end of the runtime answers a message without an id, or with a null
      one. */
  lemma NotificationsAreNotAnswered(env: Surroundings, caller: string, table: Table, msg: Message)
    requires !Asks(msg.id)
    ensures ServerReply(env, caller, msg) == None && ClientReply(table, msg) == None
  {
  }

  lemma HubAnswersItself(env: Surroundings, caller: string, msg: Message)
    requires Asks(msg.id)
    ensures msg.jsonrpc != "2.0" || TrimSpace(msg.methodName) == "" ==>
      ServerReply(env, caller, msg) == ErrorForm(msg.id, -32600, "invalid request", Null)
    ensures msg.jsonrpc == "2.0" && TrimSpace(msg.methodName) == "rpc.heartbeat" ==>
      ServerReply(env, caller, msg) == ResultForm(msg.id, Obj(map[]))
  {
  }

  lemma HubRefusesParams(env: Surroundings, caller: string, msg: Message)
    requires Asks(msg.id) && msg.jsonrpc == "2.0"
    requires TrimSpace(msg.methodName) !in ["", "rpc.heartbeat", "rpc.peers"]
    requires msg.params.Some? && !msg.params.value.Obj? && msg.params.value != Null
    ensures ServerReply(env, caller, msg) == ErrorForm(msg.id, -32602, "params must be an object", Null)
  {
  }

  /** rpc.peers lists every connected peer and no other. */
  lemma HubListsPeers(env: Surroundings, caller: string, msg: Message)
    requires Asks(msg.id) && msg.jsonrpc == "2.0" && TrimSpace(msg.methodName) == "rpc.peers"
    ensures exists j :: ServerReply(env, caller, msg) == ResultForm(msg.id, j) && SaysPeers(j, env.listed)
  {
    PeersVerdictSays(env.listed);
    assert ServerReply(env, caller, msg) == ResultForm(msg.id, PeersVerdict(env.listed).value);
  }

  predicate RoutingUsable(p: Params) {
    "_routing" in p ==>
      SaysText(p["_routing"], "") || SaysText(p["_routing"], "broadcast-response") || SaysText(p["_routing"], "full-broadcast")
  }

  predicate PeerUsable(p: Params) {
    "_peer" in p ==> p["_peer"].Str? && TrimSpace(p["_peer"].s) != ""
  }

  predicate Starred(m: string) {
    |m| >= 2 && m[0] == '*' && m[1] == '.'
  }

  predicate WantsFullBroadcast(p: Params) {
    "_routing" in p && SaysText(p["_routing"], "full-broadcast")
  }

  predicate WantsBroadcastResponse(p: Params) {
    "_routing" in p && SaysText(p["_routing"], "broadcast-response")
  }

  lemma StarredIsPrefixed(m: string)
    ensures Starred(m) <==> HasPrefix(m, "*.")
  {
    if HasPrefix(m, "*.") {
      assert m[..2] == "*.";
    }
  }

  lemma BadHintsAnswer(env: Surroundings, caller: string, msg: Message, m: string, p: Params)
    requires Asks(msg.id) && Requests(msg, m, p) && !Dispatchable(m, p)
    ensures ServerReply(env, caller, msg) == Some(ErrorReply(msg.id, ParseError(m, p).err))
  {
    assert TrimSpace(m) == m;
  }

  lemma HubRefusesRouting(env: Surroundings, caller: string, msg: Message, m: string, p: Params)
    requires Asks(msg.id) && Requests(msg, m, p) && !RoutingUsable(p)
    ensures ServerReply(env, caller, msg) ==
      ErrorForm(msg.id, -32602,
                if p["_routing"].Str? then "unsupported _routing " + TrimSpace(p["_routing"].s) else "_routing must be a string",
                Null)
  {
    assert TrimSpace(m) == m;
    BadHintsAnswer(env, caller, msg, m, p);
  }

  lemma HubRefusesPeer(env: Surroundings, caller: string, msg: Message, m: string, p: Params)
    requires Asks(msg.id) && Requests(msg, m, p) && RoutingUsable(p) && !PeerUsable(p)
    ensures ServerReply(env, caller, msg) ==
      ErrorForm(msg.id, -32602, if p["_peer"].Str? then "_peer must be non-empty" else "_peer must be a string", Null)
  {
    assert TrimSpace(m) == m;
    BadHintsAnswer(env, caller, msg, m, p);
  }

  lemma HubRefusesMethod(env: Surroundings, caller: string, msg: Message, m: string, p: Params)
    requires Asks(msg.id) && Requests(msg, m, p) && RoutingUsable(p) && PeerUsable(p)
    ensures Starred(m) && TrimSpace(m[2..]) == "" ==>
      ServerReply(env, caller, msg) == ErrorForm(msg.id, -32600, "invalid fan-out method", Null)
    ensures !Starred(m) && WantsFullBroadcast(p) ==>
      ServerReply(env, caller, msg) == ErrorForm(msg.id, -32602, "full-broadcast requires a fan-out method", Null)
  {
    assert TrimSpace(m) == m;
    StarredIsPrefixed(m);
    if !Dispatchable(m, p) {
      BadHintsAnswer(env, caller, msg, m, p);
    }
  }

  /** A request for the hub's own handlers. */
  predicate IsForHub(m: string, p: Params) {
    RoutingUsable(p) && !WantsFullBroadcast(p) && "_peer" !in p && !Starred(m)
  }

  predicate IsForPeer(m: string, p: Params) {
    RoutingUsable(p) && !WantsFullBroadcast(p) && "_peer" in p && PeerUsable(p) && !Starred(m)
  }

  predicate IsForAll(m: string, p: Params) {
    RoutingUsable(p) && PeerUsable(p) && Starred(m) && TrimSpace(m[2..]) != ""
  }

  function Cleaned(p: Params): Params {
    map k | k in p && k != "_routing" && k != "_peer" :: p[k]
  }

  lemma CleanedIsWithoutHints(p: Params)
    ensures Cleaned(p) == WithoutHints(p)
  {
  }

  lemma RouteForHub(msg: Message, m: string, p: Params)
    requires Requests(msg, m, p) && IsForHub(m, p)
    ensures ServerRoute(msg) == Local(m, Cleaned(p))
  {
    assert TrimSpace(m) == m;
    StarredIsPrefixed(m);
    CleanedIsWithoutHints(p);
  }

  lemma RouteForPeer(msg: Message, m: string, p: Params)
    requires Requests(msg, m, p) && IsForPeer(m, p)
    ensures ServerRoute(msg) ==
      Unicast(TrimSpace(p["_peer"].s), if WantsBroadcastResponse(p) then BroadcastResponse else Default, m, Cleaned(p))
  {
    assert TrimSpace(m) == m;
    StarredIsPrefixed(m);
    CleanedIsWithoutHints(p);
  }

  lemma RouteForAll(msg: Message, m: string, p: Params)
    requires Requests(msg, m, p) && IsForAll(m, p)
    ensures ServerRoute(msg) ==
      FanOut(if WantsFullBroadcast(p) then FullBroadcast else if WantsBroadcastResponse(p) then BroadcastResponse else Default,
             TrimSpace(m[2..]), Cleaned(p))
  {
    assert TrimSpace(m) == m;
    StarredIsPrefixed(m);
    CleanedIsWithoutHints(p);
  }

  /** The hub's own handlers: a result, null for nil, the handler's typed error,
      an internal error for any other, and silence on cancellation. */
  lemma HubServes(env: Surroundings, caller: string, msg: Message, m: string, p: Params)
    requires Asks(msg.id) && Requests(msg, m, p) && IsForHub(m, p)
    ensures ServerReply(env, caller, msg) ==
      if m !in env.table then ErrorForm(msg.id, -32601, "method " + m + " not found", Null)
      else if env.interrupted then None
      else
        match env.table[m](Cleaned(p))
        case Returned(Some(v)) => ResultForm(msg.id, Obj(v))
        case Returned(None) => ResultForm(msg.id, Null)
        case Unencodable => ErrorForm(msg.id, -32603, "internal error", Null)
        case Failed(err) =>
          if err.canceled || err.deadline then None
          else if err.rpc.Some? then ErrorForm(msg.id, err.rpc.value.code, err.rpc.value.message, err.rpc.value.data)
          else ErrorForm(msg.id, -32603, "internal error", Null)
  {
    RouteForHub(msg, m, p);
  }

  /** A named peer: its answer, or its error, or error 5 if it is not connected. */
  lemma HubRelays(env: Surroundings, caller: string, msg: Message, m: string, p: Params)
    requires Asks(msg.id) && Requests(msg, m, p) && IsForPeer(m, p)
    ensures var target := TrimSpace(p["_peer"].s);
      ServerReply(env, caller, msg) ==
        if target !in env.connected then ErrorForm(msg.id, 5, "peer " + target + " not found", Null)
        else
          match env.remote(target, m, Cleaned(p))
          case Ok(v) => ResultForm(msg.id, Obj(v))
          case Err(err) => ErrorForm(msg.id, ErrorCode(err), ErrorText(err), ErrorData(err))
  {
    RouteForPeer(msg, m, p);
    var r := env.remote(TrimSpace(p["_peer"].s), m, Cleaned(p));
    if r.Err? {
      ErrorFields(r.err);
    }
  }

  predicate SaysEntries(j: Json, entries: seq<Entry>) {
    && j.Arr? && |j.items| == |entries|
    && forall i :: 0 <= i < |entries| ==> SaysEntry(j.items[i], entries[i].peer, entries[i].answer)
  }

  lemma FanOutVerdictSays(entries: seq<Entry>)
    ensures FanOutVerdict(entries).Result? && SaysEntries(FanOutVerdict(entries).value, entries)
  {
    var items := FanOutVerdict(entries).value.items;
    forall i | 0 <= i < |entries| ensures SaysEntry(items[i], entries[i].peer, entries[i].answer) {
      EntryJsonSays(entries[i]);
    }
  }

  /** All other peers: the list of their entries, or error 5 if there are none. */
  lemma HubFansOut(env: Surroundings, caller: string, msg: Message, m: string, p: Params)
    requires Asks(msg.id) && Requests(msg, m, p) && IsForAll(m, p)
    ensures env.connected - {caller} == {} ==>
      ServerReply(env, caller, msg) == ErrorForm(msg.id, 5, "no connected peers", Null)
    ensures env.connected - {caller} != {} ==>
      exists j :: ServerReply(env, caller, msg) == ResultForm(msg.id, j) && SaysEntries(j, env.entries)
  {
    RouteForAll(msg, m, p);
    FanOutVerdictSays(env.entries);
    if env.connected - {caller} != {} {
      assert ServerReply(env, caller, msg) == ResultForm(msg.id, FanOutVerdict(env.entries).value);
    }
  }

  // ----- what the other peers are told -----

  lemma HubAnnouncesNothing(env: Surroundings, caller: string, msg: Message, m: string, p: Params)
    requires Requests(msg, m, p) && IsForHub(m, p)
    ensures Announced(env, caller, ServerRoute(msg)) == []
  {
    RouteForHub(msg, m, p);
  }

  /** Under broadcast-response the others are told the answer, if there is one. */
  lemma HubAnnouncesAnswer(env: Surroundings, caller: string, msg: Message, m: string, p: Params)
    requires Requests(msg, m, p) && IsForPeer(m, p)
    ensures var target := TrimSpace(p["_peer"].s);
      var notices := Announced(env, caller, ServerRoute(msg));
      if target in env.connected && WantsBroadcastResponse(p) && env.remote(target, m, Cleaned(p)).Ok? then
        |notices| == 1 && notices[0].about == target
        && SaysNotice(notices[0].msg, m, target, env.remote(target, m, Cleaned(p)))
      else notices == []
  {
    var target := TrimSpace(p["_peer"].s);
    RouteForPeer(msg, m, p);
    NoticeSays(m, Entry(target, env.remote(target, m, Cleaned(p))));
  }

  predicate SaysNotices(notices: seq<Notice>, m: string, entries: seq<Entry>) {
    && |notices| == |entries|
    && forall i :: 0 <= i < |notices| ==>
         notices[i].about == entries[i].peer && SaysNotice(notices[i].msg, m, entries[i].peer, entries[i].answer)
  }

  lemma NoticesSay(m: string, entries: seq<Entry>)
    ensures SaysNotices(NoticesOf(m, entries), m, entries)
  {
    forall i | 0 <= i < |entries|
      ensures SaysNotice(NoticesOf(m, entries)[i].msg, m, entries[i].peer, entries[i].answer)
    {
      NoticeSays(m, entries[i]);
    }
  }

  /** Under full-broadcast they are told every answer. */
  lemma HubAnnouncesAll(env: Surroundings, caller: string, msg: Message, m: string, p: Params)
    requires Requests(msg, m, p) && IsForAll(m, p)
    ensures var notices := Announced(env, caller, ServerRoute(msg));
      if env.connected - {caller} != {} && WantsFullBroadcast(p)
      then SaysNotices(notices, TrimSpace(m[2..]), env.entries) else notices == []
  {
    RouteForAll(msg, m, p);
    NoticesSay(TrimSpace(m[2..]), env.entries);
  }

  // ----- the client's answers -----

  lemma ClientAnswersItself(table: Table, msg: Message)
    requires Asks(msg.id)
    ensures msg.jsonrpc != "2.0" || TrimSpace(msg.methodName) == "" ==>
      ClientReply(table, msg) == ErrorForm(msg.id, -32600, "invalid request", Null)
    ensures msg.jsonrpc == "2.0" && TrimSpace(msg.methodName) == "rpc.heartbeat" ==>
      ClientReply(table, msg) == ResultForm(msg.id, Obj(map[]))
  {
  }

  /** The id is a string that starts with s. */
  predicate IsServerID(id: string) {
    && DecodeStringID(id).Some?
    && DecodeStringID(id).value != "" && DecodeStringID(id).value[0] == 's'
  }

  /** Any other id is refused before a handler is looked up: the answer is the
      same for every table. */
  lemma ClientRefusesOtherIDs(table: Table, msg: Message)
    requires Asks(msg.id) && msg.jsonrpc == "2.0" && TrimSpace(msg.methodName) != ""
    requires TrimSpace(msg.methodName) != "rpc.heartbeat" && !IsServerID(msg.id)
    ensures ClientReply(table, msg) == ErrorForm(msg.id, -32600, "server request id must start with 's'", Null)
  {
  }

  lemma ClientServes(table: Table, msg: Message)
    requires Asks(msg.id) && msg.jsonrpc == "2.0" && TrimSpace(msg.methodName) != ""
    requires TrimSpace(msg.methodName) != "rpc.heartbeat" && IsServerID(msg.id)
    ensures var m := TrimSpace(msg.methodName);
      ClientReply(table, msg) ==
        if msg.params.Some? && !msg.params.value.Obj? && msg.params.value != Null
        then ErrorForm(msg.id, -32602, "params must be an object", Null)
        else if m !in table then ErrorForm(msg.id, -32601, "method " + m + " not found", Null)
        else
          match table[m](if msg.params.Some? && msg.params.value.Obj? then msg.params.value.fields else map[])
          case Returned(Some(v)) => ResultForm(msg.id, Obj(v))
          case Returned(None) => ResultForm(msg.id, Obj(map[]))
          case Unencodable => ErrorForm(msg.id, -32603, "internal error", Null)
          case Failed(err) =>
            if err.rpc.Some? then ErrorForm(msg.id, err.rpc.value.code, err.rpc.value.message, err.rpc.value.data)
            else ErrorForm(msg.id, -32603, "internal error", Null)
  {
    assert HasPrefix(DecodeStringID(msg.id).value, "s");
  }

  // ----- the read loops and Invoke -----

  /** What either read loop of the runtime does with each kind of frame. */
  lemma ReadLoopsDo(p: Packet)
    ensures p == Binary ==> ReadLoopAction(p) == Ignore
    ensures p == Broken(false) ==>
      ReadLoopAction(p) == Reply(Message("2.0", "null", "", None, None, Some(ResponseError(-32700, "parse error", Null))))
    ensures p == Broken(true) ==>
      ReadLoopAction(p) == Reply(Message("2.0", "null", "", None, None, Some(ResponseError(-32600, "invalid request", Null))))
    ensures p.Envelope? ==>
      ReadLoopAction(p) ==
        if p.msg.methodName != "" then Serve(p.msg)
        else if p.msg.result.Some? || p.msg.error.Some? then Resolve(p.msg)
        else if Asks(p.msg.id) then
          Reply(Message("2.0", p.msg.id, "", None, None, Some(ResponseError(-32600, "invalid request", Null))))
        else Ignore
  {
  }

  /** What is written back for a frame, on either side: at most one message. */
  lemma LoopsWrite(env: Surroundings, caller: string, table: Table, p: Packet)
    ensures p == Binary ==> HubWrittenFor(env, caller, p) == None && WrittenFor(table, p) == []
    ensures p.Broken? ==>
      var reply := ErrorForm("null", if p.validJson then -32600 else -32700,
                             if p.validJson then "invalid request" else "parse error", Null);
      HubWrittenFor(env, caller, p) == reply && WrittenFor(table, p) == [reply.value]
    ensures p.Envelope? && p.msg.methodName != "" ==>
      && HubWrittenFor(env, caller, p) == ServerReply(env, caller, p.msg)
      && WrittenFor(table, p) == match ClientReply(table, p.msg) case None => [] case Some(reply) => [reply]
    ensures p.Envelope? && p.msg.methodName == "" ==>
      var reply := if p.msg.result.Some? || p.msg.error.Some? || !Asks(p.msg.id) then None
                   else ErrorForm(p.msg.id, -32600, "invalid request", Null);
      && HubWrittenFor(env, caller, p) == reply
      && WrittenFor(table, p) == match reply case None => [] case Some(m) => [m]
  {
  }

  /** A frame answers the call pending under `key` exactly when it is a response
      whose id, white space aside, is that key. */
  lemma LoopsDeliver(p: Packet, key: string)
    ensures AnswerIn(p, key).Some? <==>
      && p.Envelope? && p.msg.methodName == "" && (p.msg.result.Some? || p.msg.error.Some?)
      && Asks(p.msg.id) && TrimSpace(p.msg.id) == key
    ensures AnswerIn(p, key).Some? ==> AnswerIn(p, key).value == CheckVersion(p.msg)
  {
  }

  /** What Invoke writes. */
  lemma InvokeWrites(id: string, m: string, p: Params)
    ensures RequestMessage(id, m, p) == Message("2.0", id, m, Some(Obj(p)), None, None)
  {
  }

  /** What Invoke makes of the response that it gets. */
  lemma InvokeReads(msg: Message)
    ensures msg.jsonrpc != "2.0" ==>
      Unpack(CheckVersion(msg)) ==
        Err(GoError(false, false, Some(ResponseError(-32600, "invalid response", Null)), "invalid response"))
    ensures msg.jsonrpc == "2.0" && msg.error.Some? ==>
      Unpack(CheckVersion(msg)) == Err(GoError(false, false, msg.error, msg.error.value.message))
    ensures msg.jsonrpc == "2.0" && msg.error.None? ==>
      Unpack(CheckVersion(msg)) == Ok(
        if msg.result.None? || msg.result.value == Null then map[]
        else if msg.result.value.Obj? then msg.result.value.fields
        else map["value" := msg.result.value])
    ensures Unpack(UnavailableMessage) ==
      Err(GoError(false, false, Some(ResponseError(14, "holon-rpc connection closed", Null)), "holon-rpc connection closed"))
  {
  }

  // ----- the bridge -----

  lemma BridgeAnswersItself(table: WsTable, msg: WsMessage)
    requires TrimSpace(msg.id) != "" && msg.methodName != ""
    ensures msg.jsonrpc != "2.0" || TrimSpace(msg.methodName) == "" ==>
      WsWrittenFor(table, WsEnvelope(msg)) == WsErrorForm(msg.id, -32600, "invalid request")
    ensures msg.jsonrpc == "2.0" && TrimSpace(msg.methodName) == "rpc.heartbeat" ==>
      WsWrittenFor(table, WsEnvelope(msg)) == WsResultForm(msg.id, Some(Obj(map[])))
  {
  }

  /** The bridge writes its handler's own result or error. */
  lemma BridgeServes(table: WsTable, msg: WsMessage)
    requires TrimSpace(msg.id) != "" && msg.jsonrpc == "2.0"
    requires TrimSpace(msg.methodName) != "" && TrimSpace(msg.methodName) != "rpc.heartbeat"
    ensures var m := TrimSpace(msg.methodName);
      WsWrittenFor(table, WsEnvelope(msg)) ==
        if m !in table then WsErrorForm(msg.id, -32601, "method " + m + " not registered")
        else
          match table[m](if msg.params.Some? then msg.params.value else Obj(map[]))
          case WsReturned(result) => WsResultForm(msg.id, result)
          case WsFailed(err) => WsErrorForm(msg.id, err.code, err.message)
          case WsOther(_) => WsErrorForm(msg.id, -32603, "internal error")
          case WsBadText => WsErrorForm("", -32603, "internal error")
  {
    assert msg.methodName != "";
  }

  lemma BridgeAnswersOthers(table: WsTable, p: WsPacket)
    ensures p == WsBroken(false) ==> WsWrittenFor(table, p) == WsErrorForm("", -32700, "parse error")
    ensures p == WsBroken(true) ==> WsWrittenFor(table, p) == WsErrorForm("", -32600, "invalid request")
    ensures p.WsEnvelope? && TrimSpace(p.msg.id) == "" ==> WsWrittenFor(table, p) == None
    ensures p.WsEnvelope? && TrimSpace(p.msg.id) != "" && p.msg.methodName == "" ==>
      WsWrittenFor(table, p) ==
        if p.msg.result.Some? || p.msg.error.Some? then None else WsErrorForm(p.msg.id, -32600, "invalid request")
  {
  }

  /** A response to the bridge with the wrong version is delivered as an error. */
  lemma BridgeReads(msg: WsMessage)
    ensures WsCheckVersion(msg) ==
      if msg.jsonrpc == "2.0" then msg
      else WsMessage(msg.jsonrpc, msg.id, msg.methodName, msg.params, None, Some(WsError(-32600, "invalid response")))
  {
  }
}
