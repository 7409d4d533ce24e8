/** What holds of every reachable state of the network, in the callers' terms. */
module NetworkTheorems {
  import opened Wrappers
  import opened Text
  import opened RpcTypes
  import opened RouteHints
  import opened WireFormat
  import opened Dispatch
  import opened PeerNames
  import opened Network
  import opened Sums
  import opened Provenance
  import opened NetworkSteps
  import opened NetworkTasks

  /** Call h has returned, or is about to return, r. */
  predicate Has(s: State, h: nat, r: InvokeResult) {
    h < |s.calls| && (s.calls[h].stage == Finished(r) || s.calls[h].stage == Gone(r))
  }

  /** The same for a call that was made by a client. */
  predicate ClientGot(s: State, h: nat, r: InvokeResult) {
    Has(s, h, r) && s.calls[h].origin.FromClient?
  }

  lemma GotIsReturned(cfg: Config, s: State, h: nat, r: InvokeResult)
    requires Reachable(cfg, s) && ClientGot(s, h, r)
    ensures s.calls[h].conn < |s.owners| && Returns(cfg, WorldOf(s), s.calls[h], r)
  {
    ReachableInv(cfg, s);
    assert CallOK(cfg, s, s.calls[h]);
  }

  // ----- a remote call is a local call -----

  /** A call for the server's own handlers: no built-in method, no fan-out
      prefix, no `_peer` hint. */
  predicate ForServer(methodName: string, params: Params) {
    && TrimSpace(methodName) != HEARTBEAT && TrimSpace(methodName) != LIST_PEERS
    && !RequestsFanOut(methodName) && PEER !in params
  }

  function HandlerValue(o: Outcome): Params
    requires o.Returned?
  {
    if o.result.Some? then o.result.value else map[]
  }

  /** Handler `m` of a table, called on the spot, succeeds with v. */
  predicate LocallyReturns(table: Table, m: string, params: Params, v: Params) {
    m in table && table[m](params).Returned? && v == HandlerValue(table[m](params))
  }

  lemma ServerRouteOf(id: string, methodName: string, params: Params)
    requires TrimSpace(methodName) != "" && ForServer(methodName, params)
    ensures ServerRoute(RequestMessage(id, methodName, params)) ==
      if Dispatchable(methodName, params) then Local(TrimSpace(methodName), WithoutHints(params))
      else Answer(Error(ParseError(methodName, params).err))
  {
    assert TrimSpace(TrimSpace(methodName)) == TrimSpace(methodName);
  }

  lemma HandlerSuccess(o: Outcome, marshal: Marshal, v: Params)
    requires marshal == MarshalObject || marshal == MarshalPeerResult
    requires UnpackVerdict(HandlerVerdict(o, marshal)) == Ok(v)
    ensures o.Returned? && v == HandlerValue(o)
  {
    if o.Returned? {
      ObjectRoundTrip(o.result);
    }
  }

  /** Whatever the other clients, calls, peers and deliveries do, an Invoke that
      returns a result returns what the server's handler of that very method
      makes of that very call's params without the routing hints. */
  lemma RemoteCallRefinesLocalCall(cfg: Config, s: State, h: nat, v: Params)
    requires Reachable(cfg, s) && ClientGot(s, h, Ok(v))
    requires ForServer(s.calls[h].methodName, s.calls[h].params)
    ensures var c := s.calls[h];
      LocallyReturns(cfg.server, TrimSpace(c.methodName), WithoutHints(c.params), v)
  {
    RemoteAnswer(cfg, s, h, Ok(v));
    var c := s.calls[h];
    var m, params := TrimSpace(c.methodName), WithoutHints(c.params);
    if m in cfg.server {
      HandlerSuccess(cfg.server[m](params), MarshalPeerResult, v);
    }
  }

  /** The same for errors: apart from a lost connection, an Invoke returns the
      verdict of the server on its own request, and nothing else. */
  lemma RemoteAnswer(cfg: Config, s: State, h: nat, r: InvokeResult)
    requires Reachable(cfg, s) && ClientGot(s, h, r) && !Fallen(r)
    requires ForServer(s.calls[h].methodName, s.calls[h].params)
    ensures var c := s.calls[h];
      var verdict := LocalVerdict(cfg.server, TrimSpace(c.methodName), WithoutHints(c.params), false);
      if Dispatchable(c.methodName, c.params) then verdict.Some? && r == UnpackVerdict(verdict.value)
      else r == UnpackVerdict(Error(ParseError(c.methodName, c.params).err))
  {
    GotIsReturned(cfg, s, h, r);
    ReachableInv(cfg, s);
    var c := s.calls[h];
    assert CallOK(cfg, s, c);
    ServerRouteOf(Key(c), c.methodName, c.params);
  }

  // ----- two hops -----

  /** A call that names a peer. */
  predicate ForPeer(methodName: string, params: Params, target: string) {
    && TrimSpace(methodName) != HEARTBEAT && TrimSpace(methodName) != LIST_PEERS
    && !RequestsFanOut(methodName)
    && target != "" && RequestedPeer(params) == Some(target)
  }

  lemma PeerRouteOf(id: string, methodName: string, params: Params, target: string)
    requires TrimSpace(methodName) != "" && ForPeer(methodName, params, target)
    ensures ServerRoute(RequestMessage(id, methodName, params)) ==
      if Dispatchable(methodName, params)
      then Unicast(target, RequestedMode(params).value, TrimSpace(methodName), WithoutHints(params))
      else Answer(Error(ParseError(methodName, params).err))
  {
    assert TrimSpace(TrimSpace(methodName)) == TrimSpace(methodName);
  }

  /** Passing an answer on changes nothing that the caller can see. */
  lemma TwoHopsAreOne(v: Verdict)
    ensures UnpackVerdict(RelayVerdict(UnpackVerdict(v))) == UnpackVerdict(v)
  {
  }

  /** What a relayed call may return when it is not the target's answer: error 5,
      and then no peer of that name was connected when the hub took the request
      up; or what the hub's own call to the peer failed with. */
  ghost predicate RelayFailed(w: World, conn: nat, msg: Message, target: string, r: InvokeResult) {
    && r.Err?
    && (|| (r.err.rpc == Some(ResponseError(5, "peer " + target + " not found", Null))
            && exists f :: TookUp(w, conn, msg, f) && Nameless(f.peers, target))
        || exists q: GoError :: Fallen(InvokeResult.Err(q))
             && r.err.rpc == Some(ResponseError(ErrorCode(q), ErrorText(q), ErrorData(q))))
  }

  lemma FallenRelayFails(w: World, conn: nat, msg: Message, target: string, q: InvokeResult)
    requires Fallen(q)
    ensures RelayFailed(w, conn, msg, target, UnpackVerdict(RelayVerdict(q)))
  {
    ErrorFields(q.err);
  }

  lemma UnicastAnswer(cfg: Config, w: World, conn: nat, msg: Message, v: Verdict, k: nat, client: nat)
    requires k < |w.owners| && w.owners[k] == Some(client)
    requires ServerRoute(msg).Unicast? && ServerRoute(msg).target == NameOf(k) && VerdictOK(cfg, w, conn, msg, v)
    ensures var route := ServerRoute(msg);
      || RelayFailed(w, conn, msg, NameOf(k), UnpackVerdict(v))
      || UnpackVerdict(v) == UnpackVerdict(Serves(cfg.client(client), route.methodName, route.params))
  {
    var route := ServerRoute(msg);
    if j: nat, r :| UnicastOK(cfg, w.owners, j, NameOf(k), route.methodName, route.params, r) && v == RelayVerdict(r) {
      PeerNameInjective(j + 1, k + 1);
      TwoHopsAreOne(Serves(cfg.client(client), route.methodName, route.params));
      if Fallen(r) {
        FallenRelayFails(w, conn, msg, NameOf(k), r);
      }
    }
  }

  /** A call that names a client's connection, the caller's own included, returns
      exactly what that client's own handler makes of the params without the
      hints, be it a result or an error, or the hub's word that the relay failed,
      under any number of relays at once. */
  lemma RelayAnswer(cfg: Config, s: State, h: nat, r: InvokeResult, k: nat, client: nat)
    requires Reachable(cfg, s) && ClientGot(s, h, r) && !Fallen(r)
    requires ForPeer(s.calls[h].methodName, s.calls[h].params, NameOf(k))
    requires k < |s.owners| && s.owners[k] == Some(client)
    ensures var c := s.calls[h];
      if Dispatchable(c.methodName, c.params) then
        || RelayFailed(WorldOf(s), c.conn, RequestOf(c), NameOf(k), r)
        || r == UnpackVerdict(Serves(cfg.client(client), TrimSpace(c.methodName), WithoutHints(c.params)))
      else r == UnpackVerdict(Error(ParseError(c.methodName, c.params).err))
  {
    GotIsReturned(cfg, s, h, r);
    ReachableInv(cfg, s);
    var c := s.calls[h];
    assert CallOK(cfg, s, c);
    PeerRouteOf(Key(c), c.methodName, c.params, NameOf(k));
    var v :| VerdictOK(cfg, WorldOf(s), c.conn, RequestOf(c), v) && r == UnpackVerdict(v);
    if Dispatchable(c.methodName, c.params) {
      UnicastAnswer(cfg, WorldOf(s), c.conn, RequestOf(c), v, k, client);
    }
  }

  /** Any open connection can be named, whatever others there are: the hub then
      makes exactly one call, to that connection, for the dispatched method and
      params, and waits for it. */
  lemma OpenPeerIsCalled(cfg: Config, s: State, t: nat, interrupted: bool, k: nat)
    requires Enabled(s, RunServer(t, interrupted)) && k < |s.owners| && k in s.open
    requires ServerRoute(s.tasks[t].msg).Unicast? && ServerRoute(s.tasks[t].msg).target == NameOf(k)
    ensures var s', route := Apply(cfg, s, RunServer(t, interrupted)), ServerRoute(s.tasks[t].msg);
      && s'.calls == s.calls + [NewCall(FromServer, k, route.methodName, route.params, Looking)]
      && s'.tasks == s.tasks[t := Awaiting(s.tasks[t].conn, s.tasks[t].msg, [|s.calls|])]
  {
    ServingOpenPeer(cfg, Noted(s, t), t, interrupted, k);
  }

  lemma ServingOpenPeer(cfg: Config, s: State, t: nat, interrupted: bool, k: nat)
    requires t < |s.tasks| && s.tasks[t].AtServer? && k < |s.owners| && k in s.open
    requires ServerRoute(s.tasks[t].msg).Unicast? && ServerRoute(s.tasks[t].msg).target == NameOf(k)
    ensures var s', route := Serving(cfg, s, t, interrupted), ServerRoute(s.tasks[t].msg);
      s' == s.(calls := s.calls + [NewCall(FromServer, k, route.methodName, route.params, Looking)],
               tasks := s.tasks[t := Awaiting(s.tasks[t].conn, s.tasks[t].msg, [|s.calls|])])
  {
    var route := ServerRoute(s.tasks[t].msg);
    PeerIsFound(|s.owners|, s.open, k);
    OneRelayed(s, t, k, route.methodName, route.params);
  }

  lemma OneRelayed(s: State, t: nat, k: nat, m: string, params: Params)
    requires t < |s.tasks| && s.tasks[t].AtServer?
    ensures Relaying(s, t, [k], m, params) ==
      s.(calls := s.calls + [NewCall(FromServer, k, m, params, Looking)],
         tasks := s.tasks[t := Awaiting(s.tasks[t].conn, s.tasks[t].msg, [|s.calls|])])
  {
    assert RelayCalls([k], m, params) == [NewCall(FromServer, k, m, params, Looking)];
    assert Handles(|s.calls|, 1) == [|s.calls|];
  }

  /** And error 5 is the answer exactly when no open connection has the name. */
  lemma AbsentPeerIsNotFound(cfg: Config, s: State, t: nat, interrupted: bool)
    requires Enabled(s, RunServer(t, interrupted)) && ServerRoute(s.tasks[t].msg).Unicast? && HasID(s.tasks[t].msg.id)
    ensures var s', target := Apply(cfg, s, RunServer(t, interrupted)), ServerRoute(s.tasks[t].msg).target;
      s'.tasks[t] == Reporting(s.tasks[t].conn, [],
        Some(Message("2.0", s.tasks[t].msg.id, "", None, None,
                     Some(ResponseError(5, "peer " + target + " not found", Null)))))
      <==> forall k :: 0 <= k < |s.owners| && k in s.open ==> NameOf(k) != target
  {
    var target := ServerRoute(s.tasks[t].msg).target;
    if k: nat :| k < |s.owners| && k in s.open && NameOf(k) == target {
      OpenPeerIsCalled(cfg, s, t, interrupted, k);
    }
  }

  /** A connection that has just gone cannot be named any more. */
  lemma GonePeerIsNotFound(cfg: Config, s: State, k: nat, t: nat, interrupted: bool)
    requires t < |s.tasks| && s.tasks[t].AtServer? && HasID(s.tasks[t].msg.id)
    requires ServerRoute(s.tasks[t].msg).Unicast? && ServerRoute(s.tasks[t].msg).target == NameOf(k)
    ensures var gone := Apply(cfg, s, HangUp(k));
      Apply(cfg, gone, RunServer(t, interrupted)).tasks[t] == Reporting(s.tasks[t].conn, [],
        Some(Message("2.0", s.tasks[t].msg.id, "", None, None,
                     Some(ResponseError(5, "peer " + NameOf(k) + " not found", Null)))))
  {
    var gone := Apply(cfg, s, HangUp(k));
    forall j: nat | j < |gone.owners| && j in gone.open ensures NameOf(j) != NameOf(k) {
      if NameOf(j) == NameOf(k) {
        PeerNameInjective(j + 1, k + 1);
      }
    }
    AbsentPeerIsNotFound(cfg, gone, t, interrupted);
  }

  /** A call of the server's own to a client's connection returns exactly what
      that client's handler makes of it, or a failure of the connection. */
  lemma ServerCallAnswer(cfg: Config, s: State, h: nat, r: InvokeResult, client: nat)
    requires Reachable(cfg, s) && Has(s, h, r) && s.calls[h].origin.FromServer? && !Fallen(r)
    requires s.calls[h].conn < |s.owners| && s.owners[s.calls[h].conn] == Some(client)
    ensures r == UnpackVerdict(Serves(cfg.client(client), s.calls[h].methodName, s.calls[h].params))
  {
    ReachableInv(cfg, s);
    assert CallOK(cfg, s, s.calls[h]);
  }

  lemma ServedSuccess(table: Table, m: string, params: Params, v: Params)
    requires UnpackVerdict(Serves(table, m, params)) == Ok(v) && Trimmed(m) && m != HEARTBEAT
    ensures LocallyReturns(table, m, params, v)
  {
    if m in table {
      HandlerSuccess(table[m](params), MarshalObject, v);
    }
  }

  /** In particular, one that returns a result returns that client's handler's. */
  lemma RelayRefinesPeerCall(cfg: Config, s: State, h: nat, v: Params, k: nat, client: nat)
    requires Reachable(cfg, s) && ClientGot(s, h, Ok(v))
    requires ForPeer(s.calls[h].methodName, s.calls[h].params, NameOf(k))
    requires k < |s.owners| && s.owners[k] == Some(client)
    ensures var c := s.calls[h];
      LocallyReturns(cfg.client(client), TrimSpace(c.methodName), WithoutHints(c.params), v)
  {
    RelayAnswer(cfg, s, h, Ok(v), k, client);
    var c := s.calls[h];
    if Dispatchable(c.methodName, c.params) {
      ServedSuccess(cfg.client(client), TrimSpace(c.methodName), WithoutHints(c.params), v);
    }
  }

  // ----- fan-out -----

  /** A fan-out call. */
  predicate ForEveryone(methodName: string) {
    && TrimSpace(methodName) != HEARTBEAT && TrimSpace(methodName) != LIST_PEERS
    && RequestsFanOut(methodName)
  }

  lemma FanOutRouteOf(id: string, methodName: string, params: Params)
    requires TrimSpace(methodName) != "" && ForEveryone(methodName)
    ensures ServerRoute(RequestMessage(id, methodName, params)) ==
      if Dispatchable(methodName, params)
      then FanOut(RequestedMode(params).value, DispatchMethod(methodName), WithoutHints(params))
      else Answer(Error(ParseError(methodName, params).err))
  {
    assert TrimSpace(TrimSpace(methodName)) == TrimSpace(methodName);
  }

  /** What Invoke returns for a list: item j is about the j-th answer. */
  predicate IsListOf(v: Params, es: seq<Relayed>) {
    && v.Keys == {"value"} && v["value"].Arr? && |v["value"].items| == |es|
    && forall j :: 0 <= j < |es| ==> SaysEntry(v["value"].items[j], NameOf(es[j].conn), es[j].answer)
  }

  /** A fan-out that returns a result returns the whole list: one entry for each
      peer that was connected when the hub took this very request up, none of
      them the caller, and each entry says, field by field, that peer's own answer
      to the dispatched method and params, or its failure. */
  lemma FanOutRefinesPeerCalls(cfg: Config, s: State, h: nat, v: Params)
    requires Reachable(cfg, s) && ClientGot(s, h, Ok(v)) && ForEveryone(s.calls[h].methodName)
    ensures var c := s.calls[h];
      exists f, es ::
        && FanOutOK(cfg, WorldOf(s), c.conn, RequestOf(c), DispatchMethod(c.methodName), WithoutHints(c.params), f, es)
        && IsListOf(v, es)
  {
    GotIsReturned(cfg, s, h, Ok(v));
    ReachableInv(cfg, s);
    assert CallOK(cfg, s, s.calls[h]);
    FanOutReturns(cfg, WorldOf(s), s.calls[h], v);
  }

  lemma FanOutReturns(cfg: Config, w: World, c: Call, v: Params)
    requires c.conn < |w.owners| && c.origin.FromClient? && Returns(cfg, w, c, Ok(v))
    requires TrimSpace(c.methodName) != "" && ForEveryone(c.methodName)
    ensures exists f, es ::
      && FanOutOK(cfg, w, c.conn, RequestOf(c), DispatchMethod(c.methodName), WithoutHints(c.params), f, es)
      && IsListOf(v, es)
  {
    FanOutRouteOf(Key(c), c.methodName, c.params);
    var u :| VerdictOK(cfg, w, c.conn, RequestOf(c), u) && Ok(v) == UnpackVerdict(u);
    var f, es :| FanOutOK(cfg, w, c.conn, RequestOf(c), DispatchMethod(c.methodName), WithoutHints(c.params), f, es)
      && u == FanOutVerdict(ToEntries(es));
    ListIsWrittenOut(es);
  }

  lemma ListIsWrittenOut(es: seq<Relayed>)
    ensures IsListOf(map["value" := FanOutVerdict(ToEntries(es)).value], es)
  {
    forall j | 0 <= j < |es|
      ensures SaysEntry(FanOutVerdict(ToEntries(es)).value.items[j], NameOf(es[j].conn), es[j].answer)
    {
      EntryJsonSays(ToEntries(es)[j]);
    }
  }

  /** The reply to a relay holds what its calls returned: the one result or error
      of a unicast, the list of all of a fan-out, in the order of arrival. */
  lemma ReplyTellsOutcomes(cfg: Config, s: State, t: nat, order: seq<nat>)
    requires Enabled(s, Collect(t, order)) && HasID(s.tasks[t].msg.id)
    requires ServerRoute(s.tasks[t].msg).Unicast? || ServerRoute(s.tasks[t].msg).FanOut?
    ensures var task' := Apply(cfg, s, Collect(t, order)).tasks[t];
      task'.Reporting? && task'.conn == s.tasks[t].conn && task'.reply.Some?
      && var reply, id := task'.reply.value, s.tasks[t].msg.id;
      if ServerRoute(s.tasks[t].msg).Unicast? then
        match s.calls[s.tasks[t].hs[0]].stage.result
        case Ok(v) => reply == Message("2.0", id, "", None, Some(Obj(v)), None)
        case Err(e) =>
          reply == Message("2.0", id, "", None, None, Some(ResponseError(ErrorCode(e), ErrorText(e), ErrorData(e))))
      else
        && reply.result.Some? && reply == Message("2.0", id, "", None, reply.result, None)
        && reply.result.value.Arr? && |reply.result.value.items| == |order|
        && forall j :: 0 <= j < |order| ==>
             SaysEntry(reply.result.value.items[j], NameOf(s.calls[order[j]].conn), s.calls[order[j]].stage.result)
  {
    if ServerRoute(s.tasks[t].msg).Unicast? {
      UnicastReplyTells(s, t, order);
    } else {
      FanOutReplyTells(s, t, order);
    }
  }

  lemma UnicastReplyTells(s: State, t: nat, order: seq<nat>)
    requires Enabled(s, Collect(t, order)) && HasID(s.tasks[t].msg.id) && ServerRoute(s.tasks[t].msg).Unicast?
    ensures var task' := Collecting(s, t, order).tasks[t];
      task'.Reporting? && task'.conn == s.tasks[t].conn && task'.reply.Some?
      && match s.calls[s.tasks[t].hs[0]].stage.result
         case Ok(v) => task'.reply.value == Message("2.0", s.tasks[t].msg.id, "", None, Some(Obj(v)), None)
         case Err(e) =>
           task'.reply.value == Message("2.0", s.tasks[t].msg.id, "", None, None,
                                        Some(ResponseError(ErrorCode(e), ErrorText(e), ErrorData(e))))
  {
    var r := s.calls[s.tasks[t].hs[0]].stage.result;
    if r.Err? {
      ErrorFields(r.err);
    }
  }

  lemma FanOutReplyTells(s: State, t: nat, order: seq<nat>)
    requires Enabled(s, Collect(t, order)) && HasID(s.tasks[t].msg.id) && ServerRoute(s.tasks[t].msg).FanOut?
    ensures var task' := Collecting(s, t, order).tasks[t];
      task'.Reporting? && task'.conn == s.tasks[t].conn && task'.reply.Some?
      && var reply := task'.reply.value;
      && reply.result.Some? && reply == Message("2.0", s.tasks[t].msg.id, "", None, reply.result, None)
      && reply.result.value.Arr? && |reply.result.value.items| == |order|
      && forall j :: 0 <= j < |order| ==>
           SaysEntry(reply.result.value.items[j], NameOf(s.calls[order[j]].conn), s.calls[order[j]].stage.result)
  {
    forall j | 0 <= j < |order|
      ensures SaysEntry(FanOutVerdict(EntriesFor(s, order)).value.items[j], NameOf(s.calls[order[j]].conn),
                        s.calls[order[j]].stage.result)
    {
      EntryJsonSays(EntriesFor(s, order)[j]);
    }
  }

  /** A call of rpc.peers that returns a result returns one object for each peer
      that was connected when the hub took the request up, and no other. */
  lemma ListingIsWhoWasConnected(cfg: Config, s: State, h: nat, v: Params)
    requires Reachable(cfg, s) && ClientGot(s, h, Ok(v)) && TrimSpace(s.calls[h].methodName) == LIST_PEERS
    ensures var c := s.calls[h];
      exists f :: TookUp(WorldOf(s), c.conn, RequestOf(c), f) && SaysPeers(Obj(v), Names(f.peers))
  {
    GotIsReturned(cfg, s, h, Ok(v));
    ReachableInv(cfg, s);
    var c := s.calls[h];
    var u :| VerdictOK(cfg, WorldOf(s), c.conn, RequestOf(c), u) && Ok(v) == UnpackVerdict(u);
    var f :| TookUp(WorldOf(s), c.conn, RequestOf(c), f) && u == PeersVerdict(Names(f.peers));
    PeersVerdictSays(Names(f.peers));
  }

  /** What the log says of a request is who was connected when the hub took it
      up, and no other step adds to it. */
  lemma LogIsWhoWasConnected(cfg: Config, s: State, l: Label)
    requires Enabled(s, l)
    ensures !l.RunServer? ==> Apply(cfg, s, l).log == s.log
    ensures l.RunServer? ==>
      exists peers :: Apply(cfg, s, l).log == s.log + [TakenUp(s.tasks[l.t].conn, s.tasks[l.t].msg, peers)]
        && forall k: nat :: k in peers <==> k in s.open && k < |s.owners|
  {
    if l.RunServer? {
      ServingLogsNothing(cfg, Noted(s, l.t), l.t, l.interrupted);
      MembersAreAll(|s.owners|, s.open);
      assert Apply(cfg, s, l).log == s.log + [NoteOf(s, l.t)];
    } else if l.Collect? {
      CollectingLogsNothing(s, l.t, l.order);
    } else if l.Deliver? {
      ReceivingLogsNothing(s.(wire := RemoveAt(s.wire, l.i)), s.wire[l.i]);
    }
  }

  lemma ServingLogsNothing(cfg: Config, s: State, t: nat, interrupted: bool)
    requires t < |s.tasks| && s.tasks[t].AtServer?
    ensures Serving(cfg, s, t, interrupted).log == s.log
  {
    match ServerRoute(s.tasks[t].msg) {
      case Answer(v) => assert Speaking(s, t, Some(v)).log == s.log;
      case ListPeers => assert Speaking(s, t, Some(PeersVerdict(Names(Members(|s.owners|, s.open))))).log == s.log;
      case Local(m, params) => assert Speaking(s, t, LocalVerdict(cfg.server, m, params, interrupted)).log == s.log;
      case Unicast(_, _, _, _) =>
      case FanOut(_, _, _) =>
    }
  }

  lemma CollectingLogsNothing(s: State, t: nat, order: seq<nat>)
    requires Enabled(s, Collect(t, order))
    ensures Collecting(s, t, order).log == s.log
  {
  }

  lemma ReceivingLogsNothing(s: State, f: Frame)
    requires f.conn < |s.owners| && (!f.up ==> s.owners[f.conn].Some?)
    ensures Receiving(s, f).log == s.log
  {
  }

  /** A fan-out starts exactly one call for each open connection other than the
      caller's, all for the dispatched method and params, and waits for these. */
  lemma FanOutAsksEveryOtherPeer(cfg: Config, s: State, t: nat, interrupted: bool) returns (targets: seq<nat>)
    requires Enabled(s, RunServer(t, interrupted)) && ServerRoute(s.tasks[t].msg).FanOut?
    ensures targets == Members(|s.owners|, s.open - {s.tasks[t].conn})
    ensures forall k: nat :: k in targets <==> k in s.open && k < |s.owners| && k != s.tasks[t].conn
    ensures forall i, j :: 0 <= i < j < |targets| ==> targets[i] != targets[j]
    ensures var s' := Apply(cfg, s, RunServer(t, interrupted));
      var route := ServerRoute(s.tasks[t].msg);
      targets != [] ==>
        && s'.calls == s.calls + RelayCalls(targets, route.methodName, route.params)
        && s'.tasks[t] == Awaiting(s.tasks[t].conn, s.tasks[t].msg, Handles(|s.calls|, |targets|))
  {
    targets := Members(|s.owners|, s.open - {s.tasks[t].conn});
    MembersAreAll(|s.owners|, s.open - {s.tasks[t].conn});
  }

  // ----- first answer wins, only from the right peer -----

  /** A response without a match, or with a null or missing id, disappears. */
  lemma UnmatchedIsDropped(cfg: Config, s: State, i: nat)
    requires Enabled(s, Deliver(i)) && ReadLoopAction(s.wire[i].packet).Resolve? && !Matches(s, s.wire[i])
    ensures Apply(cfg, s, Deliver(i)) == s.(wire := RemoveAt(s.wire, i))
  {
  }

  /** A response with the wrong version can only be an error, whatever it says. */
  lemma WrongVersionIsError(msg: Message)
    requires msg.jsonrpc != VERSION
    ensures Unpack(CheckVersion(msg)).Err?
    ensures Unpack(CheckVersion(msg)).err.rpc.value.code == INVALID_REQUEST
  {
  }

  /** The frame is a response, and its key is in the table it is matched against. */
  ghost predicate Matches(s: State, f: Frame)
    requires f.conn < |s.owners| && (!f.up ==> Honest(s, f.conn))
  {
    && ReadLoopAction(f.packet).Resolve? && IdKey(f.packet.msg.id).Some?
    && (TableFor(s, f), IdKey(f.packet.msg.id).value) in s.pending
  }

  lemma MatchedIsPosted(cfg: Config, s: State, i: nat)
    requires Enabled(s, Deliver(i)) && Matches(s, s.wire[i])
    ensures var f := s.wire[i];
      Apply(cfg, s, Deliver(i)).posts ==
        s.posts + [Post(s.pending[(TableFor(s, f), IdKey(f.packet.msg.id).value)], CheckVersion(f.packet.msg))]
  {
  }

  lemma UnmatchedIsNotPosted(cfg: Config, s: State, i: nat)
    requires Enabled(s, Deliver(i)) && !Matches(s, s.wire[i])
    ensures Apply(cfg, s, Deliver(i)).posts == s.posts
  {
    if ReadLoopAction(s.wire[i].packet).Resolve? {
      UnmatchedIsDropped(cfg, s, i);
    }
  }

  /** A delivered frame reaches a call exactly when it is a response that matches
      one; that call is in progress, it has this very key, and the frame came over
      its own connection. With the wrong version all it can bring is an error. */
  lemma OnlyTheRightPeer(cfg: Config, s: State, i: nat)
    requires Reachable(cfg, s) && Enabled(s, Deliver(i))
    ensures var s', f := Apply(cfg, s, Deliver(i)), s.wire[i];
      if !Matches(s, f) then s'.posts == s.posts
      else
        exists h: nat ::
          && s'.posts == s.posts + [Post(h, CheckVersion(f.packet.msg))] && h < |s.calls|
          && Entered(s.calls[h]) && s.calls[h].conn == f.conn
          && IdKey(f.packet.msg.id) == Some(Key(s.calls[h]))
          && (f.packet.msg.jsonrpc != VERSION ==>
                Unpack(CheckVersion(f.packet.msg)).Err? &&
                Unpack(CheckVersion(f.packet.msg)).err.rpc.value.code == INVALID_REQUEST)
  {
    ReachableInv(cfg, s);
    var f := s.wire[i];
    assert f in s.wire;
    if Matches(s, f) {
      var h := s.pending[(TableFor(s, f), IdKey(f.packet.msg.id).value)];
      MatchIsGenuine(cfg, s, f, h);
      MatchedIsPosted(cfg, s, i);
      if f.packet.msg.jsonrpc != VERSION {
        WrongVersionIsError(f.packet.msg);
      }
    } else {
      UnmatchedIsNotPosted(cfg, s, i);
    }
  }

  /** The first message in a call's channel stays, and so does the result. */
  lemma {:induction false} FirstAnswerWins(cfg: Config, s: State, ls: seq<Label>, h: nat)
    requires Runs(cfg, s, ls) && h < |s.calls|
    ensures h < |Exec(cfg, s, ls).calls| && KeepsAnswer(s.calls[h], Exec(cfg, s, ls).calls[h])
    decreases |ls|
  {
    if ls != [] {
      FirstAnswerStays(cfg, s, ls[0], h);
      FirstAnswerWins(cfg, Apply(cfg, s, ls[0]), ls[1..], h);
    }
  }

  /** A call goes on without losing its first answer or its result. */
  predicate KeepsAnswer(c: Call, c': Call) {
    && (c.slot.Some? ==> c'.slot == c.slot)
    && (c.stage.Finished? || c.stage.Gone? ==>
          (c'.stage.Finished? || c'.stage.Gone?) && c'.stage.result == c.stage.result)
  }

  lemma InvokeKeepsAnswers(cfg: Config, s: State, l: Label, h: nat)
    requires Enabled(s, l) && h < |s.calls|
    requires l.LookUp? || l.DrawNumber? || l.Register? || l.Send? || l.SendFails? || l.Receive? || l.Abandon? || l.Remove?
    ensures h < |Apply(cfg, s, l).calls| && KeepsAnswer(s.calls[h], Apply(cfg, s, l).calls[h])
  {
  }

  lemma ServingKeepsCalls(cfg: Config, s: State, t: nat, interrupted: bool)
    requires t < |s.tasks| && s.tasks[t].AtServer?
    ensures s.calls <= Serving(cfg, s, t, interrupted).calls
  {
    match ServerRoute(s.tasks[t].msg) {
      case Unicast(target, _, m, params) =>
        var k := PeerNamed(|s.owners|, s.open, target);
        if k.Some? {
          RelayingKeepsCalls(s, t, [k.value], m, params);
        }
      case FanOut(_, m, params) =>
        RelayingKeepsCalls(s, t, Members(|s.owners|, s.open - {s.tasks[t].conn}), m, params);
      case _ =>
    }
  }

  lemma RelayingKeepsCalls(s: State, t: nat, targets: seq<nat>, m: string, params: Params)
    requires t < |s.tasks| && s.tasks[t].AtServer?
    ensures s.calls <= Relaying(s, t, targets, m, params).calls
  {
  }

  lemma CollectingKeepsCalls(s: State, t: nat, order: seq<nat>)
    requires Enabled(s, Collect(t, order))
    ensures Collecting(s, t, order).calls == s.calls
  {
  }

  lemma OthersKeepCalls(cfg: Config, s: State, l: Label)
    requires Enabled(s, l) && (l.Deliver? || l.RunClient? || l.Emit? || l.Finish?)
    ensures Apply(cfg, s, l).calls == s.calls
  {
  }

  lemma FirstAnswerStays(cfg: Config, s: State, l: Label, h: nat)
    requires Enabled(s, l) && h < |s.calls|
    ensures h < |Apply(cfg, s, l).calls| && KeepsAnswer(s.calls[h], Apply(cfg, s, l).calls[h])
  {
    if l.RunServer? {
      ServingKeepsCalls(cfg, Noted(s, l.t), l.t, l.interrupted);
    } else if l.Collect? {
      CollectingKeepsCalls(s, l.t, l.order);
    } else if l.Deliver? || l.RunClient? || l.Emit? || l.Finish? {
      OthersKeepCalls(cfg, s, l);
    } else if Internal(l) && !l.Fill? {
      InvokeKeepsAnswers(cfg, s, l, h);
    }
  }

  // ----- hygiene of the pending tables -----

  /** Keys are never reused: two calls of one origin never share a key, across
      reconnects and table swaps. */
  lemma KeysNeverReused(cfg: Config, s: State, g: nat, h: nat)
    requires Reachable(cfg, s) && g < |s.calls| && h < |s.calls| && g != h
    requires s.calls[g].number > 0 && s.calls[h].number > 0 && s.calls[g].origin == s.calls[h].origin
    ensures Key(s.calls[g]) != Key(s.calls[h])
  {
    ReachableInv(cfg, s);
    if Key(s.calls[g]) == Key(s.calls[h]) {
      KeysIdentifyCalls(s, g, h);
    }
  }

  /** Every pending key belongs to a call in progress; the tables of different
      peers share no key; when all calls have returned the tables are empty. */
  lemma PendingHygiene(cfg: Config, s: State)
    requires Reachable(cfg, s)
    ensures forall e :: e in s.pending ==>
      s.pending[e] < |s.calls| && EntryKey(s.calls[s.pending[e]]) == e && Entered(s.calls[s.pending[e]])
    ensures forall e, e' :: e in s.pending && e' in s.pending && e.0.PeerTable? && e'.0.PeerTable? && e.1 == e'.1 ==> e == e'
    ensures (forall h :: 0 <= h < |s.calls| ==> s.calls[h].stage.Gone?) ==> s.pending == map[]
  {
    ReachableInv(cfg, s);
    forall e, e' | e in s.pending && e' in s.pending && e.0.PeerTable? && e'.0.PeerTable? && e.1 == e'.1 ensures e == e' {
      assert CallOK(cfg, s, s.calls[s.pending[e]]);
      KeysIdentifyCalls(s, s.pending[e], s.pending[e']);
    }
    if forall h :: 0 <= h < |s.calls| ==> s.calls[h].stage.Gone? {
      assert forall e :: e !in s.pending;
    }
  }

  /** A deferred delete removes the call's own entry, if it is still there, and
      no other call's, in whichever generation of the table. */
  lemma DeleteOnlyOwn(cfg: Config, s: State, h: nat)
    requires Reachable(cfg, s) && Enabled(s, Remove(h))
    ensures var s' := Apply(cfg, s, Remove(h));
      forall e :: e in s.pending && s.pending[e] != h ==> e in s'.pending && s'.pending[e] == s.pending[e]
  {
    ReachableInv(cfg, s);
    var c := s.calls[h];
    assert CallOK(cfg, s, c);
    forall e | e in s.pending && s.pending[e] != h ensures e != EntryKey(c) {
      if e == EntryKey(c) {
        var g := s.pending[e];
        assert CallOK(cfg, s, s.calls[g]);
        SameTableSameOrigin(s, g, h);
        KeysIdentifyCalls(s, g, h);
      }
    }
  }

  lemma SameTableSameOrigin(s: State, g: nat, h: nat)
    requires g < |s.calls| && h < |s.calls| && TableOf(s.calls[g]) == TableOf(s.calls[h])
    ensures s.calls[g].origin == s.calls[h].origin
  {
  }

  /** Failing a table leaves none of its entries and touches no other table. */
  lemma {:induction false} FailTableFailsAll(cfg: Config, s: State, table: TableId)
    requires TablesOK(s)
    ensures var s' := Apply(cfg, s, FailTable(table));
      && (forall e :: e in s'.pending <==> e in s.pending && e.0 != table)
      && (forall e :: e in s'.pending ==> s'.pending[e] == s.pending[e])
      && (forall e :: e in s.pending && e.0 == table ==> Post(s.pending[e], UnavailableMessage) in s'.posts)
  {
    forall e | e in s.pending && e.0 == table
      ensures Post(s.pending[e], UnavailableMessage) in Apply(cfg, s, FailTable(table)).posts
    {
      PendingInFinds(s, table, |s.calls|, s.pending[e]);
      var hs := PendingIn(s, table, |s.calls|);
      var j :| 0 <= j < |hs| && hs[j] == s.pending[e];
      assert FailurePosts(hs)[j] == Post(s.pending[e], UnavailableMessage);
    }
  }

  lemma {:induction false} PendingInFinds(s: State, table: TableId, n: nat, h: nat)
    requires h < n <= |s.calls| && IsPendingIn(s, table, h)
    ensures h in PendingIn(s, table, n)
  {
    if h < n - 1 {
      PendingInFinds(s, table, n - 1, h);
    }
  }
}
