/** The client's state and its methods (pkg/holonrpc/client.go). Each method
    is one region under the state lock, or the part of a method between two of
    them; Lifecycle.dfy and Network.dfy interleave these steps. */
module ClientRuntime {
  import opened Wrappers
  import opened Text
  import opened RpcTypes
  import opened Dispatch
  import opened Pending
  import opened Lifecycle

  function ToSeq<T>(o: Option<T>): seq<T> {
    if o.Some? then [o.value] else []
  }

  /** What the read loop writes for a packet, requests served in place. */
  function WrittenFor(table: Table, p: Packet): seq<Message> {
    match ReadLoopAction(p)
    case Ignore => []
    case Reply(msg) => [msg]
    case Serve(msg) => ToSeq(ClientReply(table, msg))
    case Resolve(_) => []
  }

  function WrittenForAll(table: Table, ps: seq<Packet>): seq<Message> {
    if ps == [] then [] else WrittenForAll(table, ps[..|ps| - 1]) + WrittenFor(table, ps[|ps| - 1])
  }

  /** The first answer among several packets. */
  function FirstAnswer(ps: seq<Packet>, key: string): Option<Message> {
    if ps == [] then None
    else
      var earlier := FirstAnswer(ps[..|ps| - 1], key);
      if earlier.Some? then earlier else AnswerIn(ps[|ps| - 1], key)
  }

  lemma NextWritten(table: Table, ps: seq<Packet>, i: nat)
    requires i < |ps|
    ensures WrittenForAll(table, ps[..i + 1]) == WrittenForAll(table, ps[..i]) + WrittenFor(table, ps[i])
  {
    assert ps[..i + 1][..i] == ps[..i];
  }

  /** Offering the next packet's answer after the first one so far. */
  lemma NextAnswer(ps: seq<Packet>, i: nat, key: string, content: Option<Message>)
    requires i < |ps|
    ensures AfterAnswer(AfterAnswer(content, FirstAnswer(ps[..i], key)), AnswerIn(ps[i], key)) ==
      AfterAnswer(content, FirstAnswer(ps[..i + 1], key))
  {
    assert ps[..i + 1][..i] == ps[..i];
  }

  class Client {
    var closed: bool
    var ws: Option<nat>
    var rxCtx: Option<nat>
    var cancel: Option<nat>
    var done: Option<nat>
    var reconnect: Option<nat>
    var handlers: Table
    const pending: PendingTable<Message>
    var nextClientID: nat
    /** What was written to the connection. */
    var written: seq<Message>

    constructor (handlers: Table)
      ensures View() == EmptyCore && fresh(pending) && pending.Valid() && pending.entries == map[]
      ensures nextClientID == 0 && written == [] && this.handlers == handlers
    {
      closed, ws, rxCtx, cancel, done, reconnect := false, None, None, None, None, None;
      this.handlers := handlers;
      pending := new PendingTable<Message>("");
      nextClientID, written := 0, [];
    }

    /** The fields under the state lock, as the transition system sees them. */
    ghost function View(): Core
      reads this
    {
      Core(closed, ws, rxCtx, cancel, done, reconnect)
    }

    /** Connect up to its dial. */
    method MayDial() returns (ok: bool)
      ensures ok <==> !View().closed && View().ws.None?
    {
      if closed {
        return false;
      }
      if ws.Some? {
        return false;
      }
      return true;
    }

    /** Connect after its dial: looks at `closed` again, but not at `ws`. */
    method InstallDialled(conn: nat) returns (ok: bool)
      modifies this`ws, this`rxCtx, this`cancel, this`done
      ensures ok <==> !old(View()).closed
      ensures View() == if ok then Install(old(View()), conn) else old(View())
    {
      if closed {
        return false;
      }
      ws, rxCtx, cancel, done := Some(conn), Some(conn), Some(conn), Some(conn);
      return true;
    }

    /** reconnectLoop after its dial: looks at both. */
    method InstallRedialled(conn: nat) returns (ok: bool)
      modifies this`ws, this`rxCtx, this`cancel, this`done
      ensures ok <==> !old(View()).closed && old(View()).ws.None?
      ensures View() == if ok then Install(old(View()), conn) else old(View())
    {
      if closed {
        return false;
      }
      if ws.Some? {
        return false;
      }
      ws, rxCtx, cancel, done := Some(conn), Some(conn), Some(conn), Some(conn);
      return true;
    }

    /** ConnectWithReconnect before its dial. */
    method BeginReconnect(loop: nat) returns (ok: bool)
      modifies this`reconnect
      ensures ok <==> !old(View()).closed && old(View()).ws.None? && old(View()).loop.None?
      ensures View() == if ok then old(View()).(loop := Some(loop)) else old(View())
    {
      if closed {
        return false;
      }
      if ws.Some? || reconnect.Some? {
        return false;
      }
      reconnect := Some(loop);
      return true;
    }

    /** onDisconnect under the state lock: whether `conn` was the installed
        connection, what to cancel, and which loop to wake afterwards. */
    method Detach(conn: nat) returns (hit: bool, cancelled: Option<nat>, wake: Option<nat>)
      modifies this`ws, this`rxCtx, this`cancel, this`done
      ensures hit <==> old(View()).ws == Some(conn)
      ensures View() == if hit then Drop(old(View())) else old(View())
      ensures cancelled == if hit then old(View()).cancel else None
      ensures wake == if hit then WakeTarget(old(View())) else None
    {
      hit, cancelled, wake := false, None, None;
      if ws == Some(conn) {
        ws := None;
        cancelled := cancel;
        cancel := None;
        rxCtx := None;
        done := None;
        hit := true;
        if !closed && reconnect.Some? {
          wake := reconnect;
        }
      }
    }

    /** disableReconnect under the state lock. */
    method DisableReconnect(expected: Option<nat>) returns (taken: Option<nat>)
      modifies this`reconnect
      ensures old(View()).loop == expected ==> taken == expected && View() == old(View()).(loop := None)
      ensures old(View()).loop != expected ==> taken == None && View() == old(View())
    {
      if reconnect != expected {
        return None;
      }
      taken := reconnect;
      reconnect := None;
    }

    /** Close under the state lock: what it has to cancel, stop and wait for. */
    method BeginClose() returns (first: bool, toCancel: Option<nat>, toAwait: Option<nat>, toStop: Option<nat>)
      modifies this`closed, this`ws, this`cancel, this`done, this`reconnect
      ensures first <==> !old(View()).closed
      ensures View() == if first then Shut(old(View())) else old(View())
      ensures first ==> Cancelling(toCancel, toAwait, toStop) == Cancelling(old(cancel), old(done), old(reconnect))
      ensures View().closed
    {
      if closed {
        return false, None, None, None;
      }
      closed := true;
      toCancel, toAwait, toStop := cancel, done, reconnect;
      ws, cancel, done, reconnect := None, None, None, None;
      first := true;
    }

    /** currentConn: a connection, or whether the failure is the retryable one. */
    method CurrentConn() returns (conn: Option<nat>, unavailable: bool)
      ensures conn.Some? <==> !closed && ws.Some? && cancel.Some? && rxCtx.Some?
      ensures conn.Some? ==> conn == ws
      ensures unavailable <==> conn.None? && !closed && reconnect.Some?
    {
      if closed {
        return None, false;
      }
      if ws.None? || cancel.None? || rxCtx.None? {
        return None, reconnect.Some?;
      }
      return ws, false;
    }

    /** Invoke from its id to its write: a fresh key, a fresh channel under it,
        one request written. `writable` says whether the write succeeds; if not,
        the deferred delete takes the entry out again. */
    method SendRequest(methodName: string, params: Params, writable: bool)
      returns (key: string, sent: Option<OneSlot<Message>>)
      requires pending.Valid()
      modifies this`nextClientID, this`written, pending
      ensures pending.Valid() && nextClientID == old(nextClientID) + 1
      ensures key == MintedID('c', nextClientID) && IdKey(key) == Some(key)
      ensures (sent.Some? <==> writable) && (sent.Some? ==> fresh(sent.value) && sent.value.content == None)
      ensures pending.entries == if sent.Some? then old(pending.entries)[key := sent.value] else old(pending.entries) - {key}
      ensures written == old(written) + if sent.Some? then [RequestMessage(key, methodName, params)] else []
    {
      nextClientID := nextClientID + 1;
      var id := "c" + Decimal(nextClientID);
      var idRaw := MakeID(id);
      IdRoundTrip(id);
      key := IdKey(idRaw).value;
      var slot := pending.Register(key);
      if !writable {
        pending.Remove(key);
        return key, None;
      }
      written := written + [RequestMessage(idRaw, methodName, params)];
      sent := Some(slot);
    }

    method SendResult(id: string, result: Option<Params>)
      modifies this`written
      ensures written == old(written) + [ResultReply(id, MarshalObject(result))]
    {
      written := written + [ResultReply(id, MarshalObject(result))];
    }

    method SendError(id: string, err: ResponseError)
      modifies this`written
      ensures written == old(written) + [ErrorReply(id, err)]
    {
      written := written + [ErrorReply(id, err)];
    }

    /** handleRequest: what is written is the reply that Dispatch.dfy defines. */
    method HandleRequest(msg: Message)
      modifies this`written
      ensures written == old(written) + ToSeq(ClientReply(handlers, msg))
    {
      if msg.jsonrpc != VERSION {
        if HasID(msg.id) {
          SendError(msg.id, ResponseError(INVALID_REQUEST, "invalid request", Null));
        }
        return;
      }
      var name := TrimSpace(msg.methodName);
      if name == "" {
        if HasID(msg.id) {
          SendError(msg.id, ResponseError(INVALID_REQUEST, "invalid request", Null));
        }
        return;
      }
      if name == HEARTBEAT {
        if HasID(msg.id) {
          SendResult(msg.id, Some(map[]));
        }
        return;
      }
      if HasID(msg.id) {
        var sid := DecodeStringID(msg.id);
        if sid.None? || !HasPrefix(sid.value, "s") {
          SendError(msg.id, ResponseError(INVALID_REQUEST, "server request id must start with 's'", Null));
          return;
        }
      }
      var params := DecodeParams(msg.params);
      if params.None? {
        if HasID(msg.id) {
          SendError(msg.id, ResponseError(INVALID_PARAMS, "params must be an object", Null));
        }
        return;
      }
      if name !in handlers {
        if HasID(msg.id) {
          SendError(msg.id, ResponseError(METHOD_NOT_FOUND, "method " + name + " not found", Null));
        }
        return;
      }
      var outcome := handlers[name](params.value);
      if outcome.Failed? {
        if !HasID(msg.id) {
          return;
        }
        if outcome.err.rpc.Some? {
          SendError(msg.id, outcome.err.rpc.value);
          return;
        }
        SendError(msg.id, ResponseError(INTERNAL_ERROR, "internal error", Null));
        return;
      }
      if HasID(msg.id) {
        if outcome.Unencodable? {
          SendError(msg.id, ResponseError(INTERNAL_ERROR, "internal error", Null));
        } else {
          SendResult(msg.id, outcome.result);
        }
      }
    }

    /** handleResponse */
    method HandleResponse(msg: Message)
      requires pending.Valid()
      modifies pending.entries.Values
      ensures pending.Valid() && pending.entries == old(pending.entries)
      ensures forall k :: k in pending.entries ==>
        pending.entries[k].content ==
          if IdKey(msg.id) == Some(k) then AfterSend(old(pending.entries[k].content), CheckVersion(msg))
          else old(pending.entries[k].content)
    {
      var key := IdKey(msg.id);
      if key.None? {
        return;
      }
      pending.Deliver(key, CheckVersion(msg));
    }

    /** One turn of the read loop. */
    method HandlePacket(p: Packet)
      requires pending.Valid()
      modifies this`written, pending.entries.Values
      ensures pending.Valid() && pending.entries == old(pending.entries)
      ensures written == old(written) + WrittenFor(handlers, p)
      ensures forall k :: k in pending.entries ==>
        pending.entries[k].content == AfterAnswer(old(pending.entries[k].content), AnswerIn(p, k))
    {
      match ReadLoopAction(p) {
        case Ignore =>
        case Reply(msg) => written := written + [msg];
        case Serve(msg) => HandleRequest(msg);
        case Resolve(msg) => HandleResponse(msg);
      }
    }

    /** The read loop over the packets of one connection, requests served in
        place: every request is answered once, every pending call has the first
        answer that came under its key, and nothing else changes. */
    method ReadLoop(packets: seq<Packet>)
      requires pending.Valid()
      modifies this`written, pending.entries.Values
      ensures pending.Valid() && pending.entries == old(pending.entries)
      ensures written == old(written) + WrittenForAll(handlers, packets)
      ensures forall k :: k in pending.entries ==>
        pending.entries[k].content == AfterAnswer(old(pending.entries[k].content), FirstAnswer(packets, k))
    {
      var i := 0;
      while i < |packets|
        invariant i <= |packets| && pending.Valid() && pending.entries == old(pending.entries)
        invariant written == old(written) + WrittenForAll(handlers, packets[..i])
        invariant forall k :: k in pending.entries ==>
          pending.entries[k].content == AfterAnswer(old(pending.entries[k].content), FirstAnswer(packets[..i], k))
      {
        HandlePacket(packets[i]);
        NextWritten(handlers, packets, i);
        forall k | k in pending.entries
          ensures pending.entries[k].content == AfterAnswer(old(pending.entries[k].content), FirstAnswer(packets[..i + 1], k))
        {
          NextAnswer(packets, i, k, old(pending.entries[k].content));
        }
        i := i + 1;
      }
      assert packets[..i] == packets;
    }
  }
}
