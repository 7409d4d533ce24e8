/** What each endpoint answers to a request: reference definitions that the
    branching handlers in Client.dfy and Server.dfy are proved against. */
module Dispatch {
  import opened Text
  import opened RpcTypes
  import opened Wrappers
  import opened RouteHints
  import opened WireFormat

  /** The substance of an answer; `Respond` puts it in an envelope. */
  datatype Verdict = Result(value: Json) | Error(err: ResponseError)

  function Respond(id: string, v: Verdict): Message {
    match v
    case Result(value) => ResultReply(id, value)
    case Error(err) => ErrorReply(id, err)
  }

  function Fault(code: int, text: string): Verdict {
    Error(ResponseError(code, text, Null))
  }

  const InternalFault: Verdict := Fault(INTERNAL_ERROR, "internal error")

  function NotFoundFault(methodName: string): Verdict {
    Fault(METHOD_NOT_FOUND, "method " + methodName + " not found")
  }

  /** How an endpoint writes a handler's result. */
  type Marshal = Option<Params> -> Json

  /** What a handler's outcome is worth as an answer. */
  function HandlerVerdict(o: Outcome, marshal: Marshal): Verdict {
    match o
    case Returned(result) => Result(marshal(result))
    case Unencodable => InternalFault
    case Failed(err) => if err.rpc.Some? then Error(err.rpc.value) else InternalFault
  }

  /** On either endpoint: reading the answer on the other side gives back the
      handler's own result or its own typed error; anything else arrives as an
      internal error. */
  lemma VerdictRoundTrip(id: string, o: Outcome, marshal: Marshal)
    requires marshal == MarshalObject || marshal == MarshalPeerResult
    ensures o.Returned? ==>
      Unpack(Respond(id, HandlerVerdict(o, marshal))) == Ok(if o.result.Some? then o.result.value else map[])
    ensures o.Failed? && o.err.rpc.Some? ==>
      Unpack(Respond(id, HandlerVerdict(o, marshal))) == Err(GoError(false, false, o.err.rpc, o.err.rpc.value.message))
    ensures Unpack(Respond(id, HandlerVerdict(o, marshal))).Ok? <==> o.Returned?
  {
    if o.Returned? {
      ObjectRoundTrip(o.result);
    }
  }

  /** A handler that returns nil is answered with an empty object by a client,
      and by the hub with null; the hub's answer is an object exactly when the
      handler's result is not nil. Invoke does not see the difference. */
  lemma NilResultOnTheWire(id: string, o: Outcome)
    requires o.Returned?
    ensures HandlerVerdict(o, MarshalObject).value.Obj?
    ensures HandlerVerdict(o, MarshalPeerResult).value.Obj? <==> o.result.Some?
    ensures Unpack(Respond(id, HandlerVerdict(o, MarshalPeerResult))) == Unpack(Respond(id, HandlerVerdict(o, MarshalObject)))
  {
    ObjectRoundTrip(o.result);
  }

  // ----- the client's side of server-initiated requests -----

  const HEARTBEAT := "rpc.heartbeat"
  const LIST_PEERS := "rpc.peers"

  /** Server-minted ids are strings that start with "s". */
  predicate PassesGate(id: string) {
    var sid := DecodeStringID(id);
    sid.Some? && HasPrefix(sid.value, "s")
  }

  function ClientVerdict(table: Table, msg: Message): Verdict {
    var m := TrimSpace(msg.methodName);
    var params := DecodeParams(msg.params);
    if msg.jsonrpc != VERSION || m == "" then Fault(INVALID_REQUEST, "invalid request")
    else if m == HEARTBEAT then Result(Obj(map[]))
    else if HasID(msg.id) && !PassesGate(msg.id) then
      Fault(INVALID_REQUEST, "server request id must start with 's'")
    else if params.None? then Fault(INVALID_PARAMS, "params must be an object")
    else if m !in table then NotFoundFault(m)
    else HandlerVerdict(table[m](params.value), MarshalObject)
  }

  /** Section 4.1 of JSON-RPC 2.0: a notification is never answered. */
  function ClientReply(table: Table, msg: Message): Option<Message> {
    if HasID(msg.id) then Some(Respond(msg.id, ClientVerdict(table, msg))) else None
  }

  // ----- the server's side of client-initiated requests -----

  datatype Route =
    | Answer(v: Verdict)
    | ListPeers
    | Local(methodName: string, params: Params)
    | Unicast(target: string, mode: Mode, methodName: string, params: Params)
    | FanOut(mode: Mode, methodName: string, params: Params)

  /** Where a client's request goes; nothing here depends on who is connected. */
  function ServerRoute(msg: Message): Route {
    var m := TrimSpace(msg.methodName);
    var params := DecodeParams(msg.params);
    if msg.jsonrpc != VERSION || m == "" then Answer(Fault(INVALID_REQUEST, "invalid request"))
    else if m == HEARTBEAT then Answer(Result(Obj(map[])))
    else if m == LIST_PEERS then ListPeers
    else if params.None? then Answer(Fault(INVALID_PARAMS, "params must be an object"))
    else
      match ParseHints(m, params.value)
      case Rejected(err) => Answer(Error(err))
      case Accepted(p) =>
        if p.fanOut then FanOut(p.hints.mode, p.methodName, p.cleaned)
        else if p.hints.target != "" then Unicast(p.hints.target, p.hints.mode, p.methodName, p.cleaned)
        else Local(p.methodName, p.cleaned)
  }

  /** The server's own handler. `interrupted` says that the caller's connection
      went away first. None: the request is never answered. */
  function LocalVerdict(table: Table, methodName: string, params: Params, interrupted: bool): Option<Verdict> {
    if methodName !in table then Some(NotFoundFault(methodName))
    else if interrupted then None
    else
      var o := table[methodName](params);
      if o.Failed? && (o.err.canceled || o.err.deadline) then None else Some(HandlerVerdict(o, MarshalPeerResult))
  }

  function PeerNotFound(target: string): Verdict {
    Fault(NOT_FOUND, "peer " + target + " not found")
  }

  const NoPeers: Verdict := Fault(NOT_FOUND, "no connected peers")

  /** The relayed answer of a unicast. */
  function RelayVerdict(r: InvokeResult): Verdict {
    match r
    case Ok(value) => Result(Obj(value))
    case Err(err) => Error(ToResponseError(err))
  }

  /** One peer's part in a fan-out. */
  datatype Entry = Entry(peer: string, answer: InvokeResult)

  function ErrorJson(e: ResponseError): Json {
    var m := map["code" := Num(e.code as real), "message" := Str(e.message)];
    Obj(if e.data == Null then m else m["data" := e.data])
  }

  /** An entry as the requester sees it; an empty result object is omitted. */
  function EntryJson(e: Entry): Json {
    var m := map["peer" := Str(e.peer)];
    match e.answer
    case Ok(value) => Obj(if value == map[] then m else m["result" := Obj(value)])
    case Err(err) => Obj(m["error" := ErrorJson(ToResponseError(err))])
  }

  function FanOutVerdict(entries: seq<Entry>): Verdict {
    Result(Arr(seq(|entries|, i requires 0 <= i < |entries| => EntryJson(entries[i]))))
  }

  /** An entry as other peers are told about it under full-broadcast. */
  function EntryPayload(e: Entry): Params {
    match e.answer
    case Ok(value) => map["peer" := Str(e.peer), "result" := Obj(value)]
    case Err(err) =>
      var r := ToResponseError(err);
      map["peer" := Str(e.peer),
          "error" := Obj(map["code" := Num(r.code as real), "message" := Str(r.message), "data" := r.data])]
  }

  lemma ErrorFields(err: GoError)
    ensures ToResponseError(err) == ResponseError(ErrorCode(err), ErrorText(err), ErrorData(err))
  {
  }

  lemma ErrorJsonSays(err: GoError)
    ensures SaysError(ErrorJson(ToResponseError(err)), err, false)
  {
    ErrorFields(err);
  }

  /** An entry is encoded as written out in WireFormat.dfy. */
  lemma EntryJsonSays(e: Entry)
    ensures SaysEntry(EntryJson(e), e.peer, e.answer)
  {
    if e.answer.Err? {
      ErrorJsonSays(e.answer.err);
    }
  }

  /** So the requester can tell from an entry whose it is, whether the call
      failed, and either its result or its error. */
  lemma EntryJsonFaithful(a: Entry, b: Entry)
    requires EntryJson(a) == EntryJson(b)
    ensures a.peer == b.peer && (a.answer.Ok? <==> b.answer.Ok?)
    ensures a.answer.Ok? ==> a.answer == b.answer
    ensures a.answer.Err? ==> ToResponseError(a.answer.err) == ToResponseError(b.answer.err)
  {
    var f := EntryJson(a).fields;
    EntryJsonSays(a);
    EntryJsonSays(b);
    assert "error" in f <==> a.answer.Err?;
    assert "error" in f <==> b.answer.Err?;
    if a.answer.Err? {
      ErrorFields(a.answer.err);
      ErrorFields(b.answer.err);
      SameCode(ErrorCode(a.answer.err), ErrorCode(b.answer.err));
    }
  }

  lemma SameCode(m: int, n: int)
    requires Num(m as real) == Num(n as real)
    ensures m == n
  {
    assert (m as real).Floor == m && (n as real).Floor == n;
  }

  function PeersVerdict(ids: seq<string>): Verdict {
    Result(Obj(map["peers" := Arr(seq(|ids|, i requires 0 <= i < |ids| =>
      Obj(map["id" := Str(ids[i]), "methods" := Arr([])])))]))
  }

  lemma PeersVerdictSays(ids: seq<string>)
    ensures PeersVerdict(ids).Result? && SaysPeers(PeersVerdict(ids).value, ids)
  {
  }

  /** A notification is encoded as written out in WireFormat.dfy. */
  lemma NoticeSays(methodName: string, e: Entry)
    ensures SaysNotice(Notification(methodName, EntryPayload(e)), methodName, e.peer, e.answer)
  {
    if e.answer.Err? {
      ErrorFields(e.answer.err);
    }
  }

  /** Everything a request meets while it is served: the handler table, who is
      connected, what calls to peers return, whether the caller went away, and
      in which order fan-out answers arrive. */
  datatype Surroundings = Surroundings(
    table: Table,
    listed: seq<string>,
    connected: set<string>,
    remote: (string, string, Params) -> InvokeResult,
    interrupted: bool,
    entries: seq<Entry>)

  /** The verdict on a routed request, if it gets one. */
  function RouteVerdict(env: Surroundings, caller: string, route: Route): Option<Verdict> {
    match route
    case Answer(v) => Some(v)
    case ListPeers => Some(PeersVerdict(env.listed))
    case Local(m, params) => LocalVerdict(env.table, m, params, env.interrupted)
    case Unicast(target, _, m, params) =>
      Some(if target in env.connected then RelayVerdict(env.remote(target, m, params)) else PeerNotFound(target))
    case FanOut(_, _, _) =>
      Some(if env.connected - {caller} == {} then NoPeers else FanOutVerdict(env.entries))
  }

  function ServerReply(env: Surroundings, caller: string, msg: Message): Option<Message> {
    var v := RouteVerdict(env, caller, ServerRoute(msg));
    if HasID(msg.id) && v.Some? then Some(Respond(msg.id, v.value)) else None
  }

  /** What the hub writes back for one packet, requests served in place. */
  function HubWrittenFor(env: Surroundings, caller: string, p: Packet): Option<Message> {
    match ReadLoopAction(p)
    case Ignore => None
    case Reply(msg) => Some(msg)
    case Serve(msg) => ServerReply(env, caller, msg)
    case Resolve(_) => None
  }

  lemma RespondIsResponse(id: string, v: Verdict)
    requires HasID(id)
    ensures IsResponse(Respond(id, v)) && Respond(id, v).id == id
  {
  }

  /** Sections 4.1 and 5 of JSON-RPC 2.0 on the client: a notification is never
      answered, a request by exactly one well-formed response with its own id. */
  lemma ClientRepliesOnce(table: Table, msg: Message)
    ensures ClientReply(table, msg).Some? <==> HasID(msg.id)
    ensures var r := ClientReply(table, msg);
      r.Some? ==> IsResponse(r.value) && r.value.id == msg.id
  {
    if HasID(msg.id) {
      RespondIsResponse(msg.id, ClientVerdict(table, msg));
    }
  }

  /** The same over every path of the server's dispatch and routing, unless the
      server's own handler ended in cancellation. */
  lemma ServerRepliesOnce(env: Surroundings, caller: string, msg: Message)
    ensures ServerReply(env, caller, msg).Some? <==> HasID(msg.id) && !EndsCancelled(env, ServerRoute(msg))
    ensures var r := ServerReply(env, caller, msg);
      r.Some? ==> IsResponse(r.value) && r.value.id == msg.id
  {
    var v := RouteVerdict(env, caller, ServerRoute(msg));
    if HasID(msg.id) && v.Some? {
      RespondIsResponse(msg.id, v.value);
    }
  }

  /** The request runs a handler of the server's own, and the caller's
      connection goes away first or the handler reports a cancellation. */
  predicate EndsCancelled(env: Surroundings, route: Route) {
    && route.Local? && route.methodName in env.table
    && (env.interrupted ||
        (var o := env.table[route.methodName](route.params);
         o.Failed? && (o.err.canceled || o.err.deadline)))
  }

  /** What a client's handler table makes of a method and its params. */
  function Serves(table: Table, methodName: string, params: Params): Verdict {
    var m := TrimSpace(methodName);
    if m == HEARTBEAT then Result(Obj(map[]))
    else if m in table then HandlerVerdict(table[m](params), MarshalObject)
    else NotFoundFault(m)
  }

  /** A server-minted request reaches the client's handler table: the id gate
      never turns it away. */
  lemma MintedRequestIsServed(table: Table, n: nat, methodName: string, params: Params)
    requires TrimSpace(methodName) != ""
    ensures ClientReply(table, RequestMessage(MintedID('s', n), methodName, params)) ==
      Some(Respond(MintedID('s', n), Serves(table, methodName, params)))
  {
    ServerIDPassesGate(n);
  }
}
