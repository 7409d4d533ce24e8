/** What travels in a fan-out entry and in a notification about one, field by
    field (pkg/holonrpc/types.go, routing.go). These forms are written out on
    their own; Dispatch.dfy has the encoders. */
module WireFormat {
  import opened RpcTypes

  // ----- errors -----

  /** A typed error keeps its code; otherwise 1 is cancelled, 4 is out of time,
      and 14 is unavailable. */
  function ErrorCode(err: GoError): int {
    if err.rpc.Some? then err.rpc.value.code
    else if err.canceled then 1
    else if err.deadline then 4
    else 14
  }

  function ErrorText(err: GoError): string {
    if err.rpc.Some? then err.rpc.value.message else err.text
  }

  function ErrorData(err: GoError): Json {
    if err.rpc.Some? then err.rpc.value.data else Null
  }

  // ----- entries and notifications -----

  predicate SaysError(j: Json, err: GoError, always: bool) {
    && j.Obj?
    && j.fields.Keys == (if always || ErrorData(err) != Null then {"code", "message", "data"} else {"code", "message"})
    && j.fields["code"] == Num(ErrorCode(err) as real)
    && j.fields["message"] == Str(ErrorText(err))
    && ("data" in j.fields ==> j.fields["data"] == ErrorData(err))
  }

  /** One item of the list that answers a fan-out. An empty result is left out,
      and so is an error's data when there is none. */
  predicate SaysEntry(j: Json, peer: string, answer: InvokeResult) {
    && j.Obj? && "peer" in j.fields && j.fields["peer"] == Str(peer)
    && match answer
       case Ok(v) =>
         if v == map[] then j.fields.Keys == {"peer"}
         else j.fields.Keys == {"peer", "result"} && j.fields["result"] == Obj(v)
       case Err(err) => j.fields.Keys == {"peer", "error"} && SaysError(j.fields["error"], err, false)
  }

  /** A notification that tells other peers about one peer's answer. */
  predicate SaysNotice(msg: Message, methodName: string, peer: string, answer: InvokeResult) {
    && msg.jsonrpc == "2.0" && msg.id == "" && msg.methodName == methodName && msg.result.None? && msg.error.None?
    && msg.params.Some? && msg.params.value.Obj?
    && var f := msg.params.value.fields;
    && "peer" in f && f["peer"] == Str(peer)
    && match answer
       case Ok(v) => f.Keys == {"peer", "result"} && f["result"] == Obj(v)
       case Err(err) => f.Keys == {"peer", "error"} && SaysError(f["error"], err, true)
  }

  /** The answer to rpc.peers: one object for each id. */
  predicate SaysPeers(j: Json, ids: seq<string>) {
    && j.Obj? && j.fields.Keys == {"peers"} && j.fields["peers"].Arr?
    && var items := j.fields["peers"].items;
    && |items| == |ids|
    && forall i :: 0 <= i < |ids| ==> items[i] == Obj(map["id" := Str(ids[i]), "methods" := Arr([])])
  }
}
