/** What every run of the network keeps: where each frame, task, delivery and
    result comes from. The definitions of `Returns` and what it rests on say
    what a call may return; the rest carries that through the system. */
module Provenance {
  import opened Wrappers
  import opened Text
  import opened RpcTypes
  import opened Dispatch
  import opened Network

  // ----- what a call may return -----

  type Owners = seq<Option<nat>>

  /** The parts of the state that results rest on, both of which only grow. */
  datatype World = World(owners: Owners, log: seq<TakenUp>)

  function WorldOf(s: State): World {
    World(s.owners, s.log)
  }

  predicate Grows(w: World, w': World) {
    w.owners <= w'.owners && w.log <= w'.log
  }

  function UnpackVerdict(v: Verdict): InvokeResult {
    match v
    case Result(value) => Ok(DecodeResult(Some(value)))
    case Error(err) => Err(GoError(false, false, Some(err), err.message))
  }

  const ClosedResult: InvokeResult := UnpackVerdict(Fault(UNAVAILABLE, ClosedError.text))

  /** The call failed for want of a connection, a peer or patience. */
  predicate Fallen(r: InvokeResult) {
    r == ClosedResult || (r.Err? && r.err.rpc.None?)
  }

  /** What a call to the peer on connection k may return: the outcome of that
      peer's own handler, or a failure; anything if the peer is foreign. */
  predicate RelayReturns(cfg: Config, owners: Owners, k: nat, methodName: string, params: Params, r: InvokeResult)
    requires k < |owners|
  {
    || Fallen(r)
    || owners[k].None?
    || r == UnpackVerdict(Serves(cfg.client(owners[k].value), methodName, params))
  }

  /** One peer's part in a fan-out, by connection. */
  datatype Relayed = Relayed(conn: nat, answer: InvokeResult)

  function ToEntries(es: seq<Relayed>): seq<Entry> {
    seq(|es|, j requires 0 <= j < |es| => Entry(NameOf(es[j].conn), es[j].answer))
  }

  /** Answers from different peers, none of them the caller, each its own. */
  ghost predicate RelayedOK(cfg: Config, owners: Owners, caller: nat, methodName: string, params: Params, es: seq<Relayed>) {
    && (forall j :: 0 <= j < |es| ==>
          && es[j].conn < |owners| && es[j].conn != caller
          && RelayReturns(cfg, owners, es[j].conn, methodName, params, es[j].answer))
    && (forall i, j :: 0 <= i < j < |es| ==> es[i].conn != es[j].conn)
  }

  ghost predicate UnicastOK(cfg: Config, owners: Owners, k: nat, target: string, methodName: string, params: Params, r: InvokeResult) {
    k < |owners| && NameOf(k) == target && RelayReturns(cfg, owners, k, methodName, params, r)
  }

  /** `f` tells of the moment when the server took request `msg` up. */
  predicate TookUp(w: World, conn: nat, msg: Message, f: TakenUp) {
    f in w.log && f.conn == conn && f.msg == msg
  }

  /** The answers to a fan-out: one from each peer that was connected when the
      server took the request up, the caller apart. */
  ghost predicate FanOutOK(cfg: Config, w: World, conn: nat, msg: Message, methodName: string, params: Params,
                           f: TakenUp, es: seq<Relayed>) {
    && TookUp(w, conn, msg, f)
    && RelayedOK(cfg, w.owners, conn, methodName, params, es)
    && (forall j :: 0 <= j < |es| ==> es[j].conn in f.peers)
    && (forall k :: k in f.peers && k != conn ==> exists j :: 0 <= j < |es| && es[j].conn == k)
  }

  /** None of the peers goes by this name. */
  predicate Nameless(peers: seq<nat>, name: string) {
    forall k :: k in peers ==> NameOf(k) != name
  }

  predicate NobodyElse(peers: seq<nat>, conn: nat) {
    forall k :: k in peers ==> k == conn
  }

  /** The verdicts the server may give on a request that arrived on `conn`. */
  ghost predicate VerdictOK(cfg: Config, w: World, conn: nat, msg: Message, v: Verdict) {
    match ServerRoute(msg)
    case Answer(u) => v == u
    case ListPeers => exists f :: TookUp(w, conn, msg, f) && v == PeersVerdict(Names(f.peers))
    case Local(m, params) => LocalVerdict(cfg.server, m, params, false) == Some(v)
    case Unicast(target, _, m, params) =>
      || (v == PeerNotFound(target) && exists f :: TookUp(w, conn, msg, f) && Nameless(f.peers, target))
      || exists k, r :: UnicastOK(cfg, w.owners, k, target, m, params, r) && v == RelayVerdict(r)
    case FanOut(_, m, params) =>
      || (v == NoPeers && exists f :: TookUp(w, conn, msg, f) && NobodyElse(f.peers, conn))
      || exists f, es :: FanOutOK(cfg, w, conn, msg, m, params, f, es) && v == FanOutVerdict(ToEntries(es))
  }

  /** What a call may return. */
  ghost predicate Returns(cfg: Config, w: World, c: Call, r: InvokeResult)
    requires c.conn < |w.owners|
  {
    match c.origin
    case FromServer => RelayReturns(cfg, w.owners, c.conn, c.methodName, c.params, r)
    case FromClient(_) =>
      || Fallen(r)
      || (c.number > 0 && exists v :: VerdictOK(cfg, w, c.conn, RequestOf(c), v) && r == UnpackVerdict(v))
  }

  // ----- provenance -----

  predicate IsClientRequest(c: Call, conn: nat, msg: Message) {
    c.origin.FromClient? && c.number > 0 && c.conn == conn && msg == RequestOf(c)
  }

  predicate IsServerRequest(c: Call, conn: nat, msg: Message) {
    c.origin.FromServer? && c.number > 0 && c.conn == conn && msg == RequestOf(c)
  }

  /** The server's reply to call c. */
  ghost predicate IsServerReply(cfg: Config, w: World, c: Call, conn: nat, msg: Message)
    requires conn < |w.owners|
  {
    && c.origin.FromClient? && c.number > 0 && c.conn == conn
    && exists v :: VerdictOK(cfg, w, conn, RequestOf(c), v) && msg == Respond(Key(c), v)
  }

  /** The reply of client `client` to call c. */
  predicate IsClientReply(cfg: Config, client: nat, c: Call, conn: nat, msg: Message) {
    && c.origin.FromServer? && c.number > 0 && c.conn == conn
    && msg == Respond(Key(c), Serves(cfg.client(client), c.methodName, c.params))
  }

  ghost predicate AskedByClient(s: State, conn: nat, msg: Message) {
    exists h :: 0 <= h < |s.calls| && IsClientRequest(s.calls[h], conn, msg)
  }

  ghost predicate AskedByServer(s: State, conn: nat, msg: Message) {
    exists h :: 0 <= h < |s.calls| && IsServerRequest(s.calls[h], conn, msg)
  }

  ghost predicate RepliedByServer(cfg: Config, s: State, conn: nat, msg: Message)
    requires conn < |s.owners|
  {
    exists h :: 0 <= h < |s.calls| && IsServerReply(cfg, WorldOf(s), s.calls[h], conn, msg)
  }

  ghost predicate RepliedByClient(cfg: Config, s: State, client: nat, conn: nat, msg: Message) {
    exists h :: 0 <= h < |s.calls| && IsClientReply(cfg, client, s.calls[h], conn, msg)
  }

  predicate IsNotification(msg: Message) {
    msg.id == "" && msg.methodName != ""
  }

  predicate Honest(s: State, conn: nat)
    requires conn < |s.owners|
  {
    s.owners[conn].Some?
  }

  /** What a client writes: its own requests, and replies to the server's. */
  ghost predicate UpOK(cfg: Config, s: State, conn: nat, msg: Message)
    requires conn < |s.owners| && Honest(s, conn)
  {
    AskedByClient(s, conn, msg) || RepliedByClient(cfg, s, s.owners[conn].value, conn, msg)
  }

  /** What the server writes to a client. */
  ghost predicate DownOK(cfg: Config, s: State, conn: nat, msg: Message)
    requires conn < |s.owners|
  {
    AskedByServer(s, conn, msg) || RepliedByServer(cfg, s, conn, msg) || IsNotification(msg)
  }

  /** On a client's connection only requests, replies and notifications travel. */
  ghost predicate FrameOK(cfg: Config, s: State, f: Frame) {
    && f.conn < |s.owners|
    && (Honest(s, f.conn) ==> f.packet.Envelope?)
    && (Honest(s, f.conn) && f.up ==> UpOK(cfg, s, f.conn, f.packet.msg))
    && (Honest(s, f.conn) && !f.up ==> DownOK(cfg, s, f.conn, f.packet.msg))
  }

  /** The calls a relay waits for are the ones its request asks for. */
  ghost predicate RelayOK(s: State, conn: nat, msg: Message, hs: seq<nat>) {
    && CallsFit(s, conn, msg, hs)
    && (ServerRoute(msg).FanOut? ==> exists f :: AsksEveryPeer(s, conn, msg, hs, f))
  }

  ghost predicate CallsFit(s: State, conn: nat, msg: Message, hs: seq<nat>) {
    && hs != []
    && (forall j :: 0 <= j < |hs| ==> hs[j] < |s.calls| && s.calls[hs[j]].origin.FromServer?)
    && match ServerRoute(msg)
       case Unicast(target, _, m, params) =>
         |hs| == 1 && IsRelayCall(s.calls[hs[0]], m, params) && NameOf(s.calls[hs[0]].conn) == target
       case FanOut(_, m, params) =>
         && (forall j :: 0 <= j < |hs| ==> IsRelayCall(s.calls[hs[j]], m, params) && s.calls[hs[j]].conn != conn)
         && (forall i, j :: 0 <= i < j < |hs| ==> s.calls[hs[i]].conn != s.calls[hs[j]].conn)
       case _ => false
  }

  /** The calls `hs` go to the peers that were connected when the server took the
      request up, the caller apart. */
  ghost predicate AsksEveryPeer(s: State, conn: nat, msg: Message, hs: seq<nat>, f: TakenUp)
    requires forall j :: 0 <= j < |hs| ==> hs[j] < |s.calls|
  {
    && TookUp(WorldOf(s), conn, msg, f)
    && (forall j :: 0 <= j < |hs| ==> s.calls[hs[j]].conn in f.peers)
    && (forall k :: k in f.peers && k != conn ==> exists j :: 0 <= j < |hs| && s.calls[hs[j]].conn == k)
  }

  predicate IsRelayCall(c: Call, methodName: string, params: Params) {
    c.methodName == methodName && c.params == params
  }

  ghost predicate TaskOK(cfg: Config, s: State, t: Task) {
    && t.conn < |s.owners|
    && match t
       case AtClient(conn, msg) => Honest(s, conn) ==> AskedByServer(s, conn, msg) || IsNotification(msg)
       case AtServer(conn, msg) => Honest(s, conn) ==> AskedByClient(s, conn, msg)
       case Awaiting(conn, msg, hs) =>
         RelayOK(s, conn, msg, hs) && (Honest(s, conn) ==> AskedByClient(s, conn, msg))
       case Reporting(conn, notes, reply) =>
         && (forall n :: n in notes ==> IsNotification(n.msg))
         && (Honest(s, conn) && reply.Some? ==> RepliedByServer(cfg, s, conn, reply.value))
  }

  ghost predicate CallOK(cfg: Config, s: State, c: Call) {
    && c.conn < |s.owners|
    && (c.origin.FromClient? ==> s.owners[c.conn] == Some(c.origin.client))
    && TrimSpace(c.methodName) != ""
    && c.number <= Counter(s, c.origin)
    && (c.stage.Looking? || c.stage.Taken? ==> c.number == 0)
    && (c.stage.Numbered? || Entered(c) ==> c.number > 0)
    && (c.slot.Some? ==> Returns(cfg, WorldOf(s), c, Unpack(c.slot.value)))
    && (c.stage.Finished? || c.stage.Gone? ==> Returns(cfg, WorldOf(s), c, c.stage.result))
  }

  /** Registered in its table, and not yet past its deferred delete. */
  predicate Entered(c: Call) {
    c.stage.Registered? || c.stage.Waiting? || c.stage.Finished?
  }

  ghost predicate PostOK(cfg: Config, s: State, p: Post) {
    && p.call < |s.calls|
    && s.calls[p.call].conn < |s.owners|
    && Returns(cfg, WorldOf(s), s.calls[p.call], Unpack(p.msg))
  }

  ghost predicate CallsOK(cfg: Config, s: State) {
    forall h :: 0 <= h < |s.calls| ==> CallOK(cfg, s, s.calls[h])
  }

  /** No counter value is ever used twice. */
  ghost predicate NumbersDistinct(s: State) {
    forall g, h :: 0 <= g < h < |s.calls| && s.calls[g].number > 0 && s.calls[g].origin == s.calls[h].origin ==>
      s.calls[g].number != s.calls[h].number
  }

  /** Every pending entry belongs to the call in progress that made it. */
  ghost predicate TablesOK(s: State) {
    forall e :: e in s.pending ==>
      && s.pending[e] < |s.calls|
      && EntryKey(s.calls[s.pending[e]]) == e
      && Entered(s.calls[s.pending[e]])
  }

  ghost predicate WireOK(cfg: Config, s: State) {
    forall f :: f in s.wire ==> FrameOK(cfg, s, f)
  }

  ghost predicate TasksOK(cfg: Config, s: State) {
    forall t :: t in s.tasks ==> TaskOK(cfg, s, t)
  }

  ghost predicate PostsOK(cfg: Config, s: State) {
    forall p :: p in s.posts ==> PostOK(cfg, s, p)
  }

  ghost predicate Inv(cfg: Config, s: State) {
    && (forall k :: k in s.open ==> k < |s.owners|)
    && CallsOK(cfg, s) && NumbersDistinct(s) && TablesOK(s)
    && WireOK(cfg, s) && TasksOK(cfg, s) && PostsOK(cfg, s)
  }

  // ----- provenance survives growth -----

  predicate SameCall(a: Call, b: Call) {
    && a.origin == b.origin && a.conn == b.conn && a.methodName == b.methodName && a.params == b.params
    && (a.number > 0 ==> b.number == a.number)
  }

  /** The later state has the same connections and calls and perhaps more. */
  ghost predicate Extends(s: State, s': State) {
    && Grows(WorldOf(s), WorldOf(s'))
    && |s.calls| <= |s'.calls|
    && forall h :: 0 <= h < |s.calls| ==> SameCall(s.calls[h], s'.calls[h])
  }

  lemma RelayedMono(cfg: Config, o: Owners, o': Owners, caller: nat, m: string, params: Params, es: seq<Relayed>)
    requires o <= o' && RelayedOK(cfg, o, caller, m, params, es)
    ensures RelayedOK(cfg, o', caller, m, params, es)
  {
    assert forall k :: 0 <= k < |o| ==> o[k] == o'[k];
  }

  lemma TookUpMono(w: World, w': World, conn: nat, msg: Message, f: TakenUp)
    requires Grows(w, w') && TookUp(w, conn, msg, f)
    ensures TookUp(w', conn, msg, f)
  {
    assert f in w'.log[..|w.log|];
  }

  lemma FanOutMono(cfg: Config, w: World, w': World, conn: nat, msg: Message, m: string, params: Params,
                   f: TakenUp, es: seq<Relayed>)
    requires Grows(w, w') && FanOutOK(cfg, w, conn, msg, m, params, f, es)
    ensures FanOutOK(cfg, w', conn, msg, m, params, f, es)
  {
    RelayedMono(cfg, w.owners, w'.owners, conn, m, params, es);
    TookUpMono(w, w', conn, msg, f);
  }

  lemma UnicastMono(cfg: Config, w: World, w': World, conn: nat, msg: Message, v: Verdict)
    requires Grows(w, w') && VerdictOK(cfg, w, conn, msg, v) && ServerRoute(msg).Unicast?
    ensures VerdictOK(cfg, w', conn, msg, v)
  {
    var route := ServerRoute(msg);
    if k: nat, r :| UnicastOK(cfg, w.owners, k, route.target, route.methodName, route.params, r) && v == RelayVerdict(r) {
      assert w.owners[k] == w'.owners[k];
      assert UnicastOK(cfg, w'.owners, k, route.target, route.methodName, route.params, r);
    } else {
      var f :| TookUp(w, conn, msg, f) && Nameless(f.peers, route.target);
      TookUpMono(w, w', conn, msg, f);
    }
  }

  lemma VerdictMono(cfg: Config, w: World, w': World, conn: nat, msg: Message, v: Verdict)
    requires Grows(w, w') && VerdictOK(cfg, w, conn, msg, v)
    ensures VerdictOK(cfg, w', conn, msg, v)
  {
    match ServerRoute(msg)
    case ListPeers =>
      var f :| TookUp(w, conn, msg, f) && v == PeersVerdict(Names(f.peers));
      TookUpMono(w, w', conn, msg, f);
    case Unicast(_, _, _, _) => UnicastMono(cfg, w, w', conn, msg, v);
    case FanOut(_, m, params) =>
      if f, es :| FanOutOK(cfg, w, conn, msg, m, params, f, es) && v == FanOutVerdict(ToEntries(es)) {
        FanOutMono(cfg, w, w', conn, msg, m, params, f, es);
      } else {
        var f :| TookUp(w, conn, msg, f) && NobodyElse(f.peers, conn);
        TookUpMono(w, w', conn, msg, f);
      }
    case _ =>
  }

  lemma ReturnsMono(cfg: Config, w: World, w': World, c: Call, c': Call, r: InvokeResult)
    requires Grows(w, w') && SameCall(c, c') && c.conn < |w.owners| && Returns(cfg, w, c, r)
    ensures Returns(cfg, w', c', r)
  {
    assert w.owners[c.conn] == w'.owners[c.conn];
    if c.origin.FromClient? && !Fallen(r) {
      var v :| VerdictOK(cfg, w, c.conn, RequestOf(c), v) && r == UnpackVerdict(v);
      VerdictMono(cfg, w, w', c.conn, RequestOf(c), v);
      assert RequestOf(c) == RequestOf(c');
    }
  }

  lemma AskedMono(s: State, s': State, conn: nat, msg: Message)
    requires Extends(s, s')
    ensures AskedByClient(s, conn, msg) ==> AskedByClient(s', conn, msg)
    ensures AskedByServer(s, conn, msg) ==> AskedByServer(s', conn, msg)
  {
    if h :| 0 <= h < |s.calls| && IsClientRequest(s.calls[h], conn, msg) {
      assert IsClientRequest(s'.calls[h], conn, msg);
    }
    if h :| 0 <= h < |s.calls| && IsServerRequest(s.calls[h], conn, msg) {
      assert IsServerRequest(s'.calls[h], conn, msg);
    }
  }

  lemma ReplyMono(cfg: Config, s: State, s': State, h: nat, conn: nat, msg: Message)
    requires Extends(s, s') && conn < |s.owners| && h < |s.calls|
    requires IsServerReply(cfg, WorldOf(s), s.calls[h], conn, msg)
    ensures IsServerReply(cfg, WorldOf(s'), s'.calls[h], conn, msg)
  {
    var c, c' := s.calls[h], s'.calls[h];
    var v :| VerdictOK(cfg, WorldOf(s), conn, RequestOf(c), v) && msg == Respond(Key(c), v);
    VerdictMono(cfg, WorldOf(s), WorldOf(s'), conn, RequestOf(c), v);
    assert RequestOf(c) == RequestOf(c') && Key(c) == Key(c');
  }

  lemma RepliedMono(cfg: Config, s: State, s': State, conn: nat, msg: Message)
    requires Extends(s, s') && conn < |s.owners|
    ensures RepliedByServer(cfg, s, conn, msg) ==> RepliedByServer(cfg, s', conn, msg)
  {
    if h :| 0 <= h < |s.calls| && IsServerReply(cfg, WorldOf(s), s.calls[h], conn, msg) {
      ReplyMono(cfg, s, s', h, conn, msg);
    }
  }

  lemma ClientRepliedMono(cfg: Config, s: State, s': State, client: nat, conn: nat, msg: Message)
    requires Extends(s, s')
    ensures RepliedByClient(cfg, s, client, conn, msg) ==> RepliedByClient(cfg, s', client, conn, msg)
  {
    if h :| 0 <= h < |s.calls| && IsClientReply(cfg, client, s.calls[h], conn, msg) {
      assert IsClientReply(cfg, client, s'.calls[h], conn, msg);
    }
  }

  lemma FrameMono(cfg: Config, s: State, s': State, f: Frame)
    requires Extends(s, s') && FrameOK(cfg, s, f)
    ensures FrameOK(cfg, s', f)
  {
    assert s.owners[f.conn] == s'.owners[f.conn];
    if Honest(s, f.conn) {
      AskedMono(s, s', f.conn, f.packet.msg);
      RepliedMono(cfg, s, s', f.conn, f.packet.msg);
      ClientRepliedMono(cfg, s, s', s.owners[f.conn].value, f.conn, f.packet.msg);
    }
  }

  lemma TaskMono(cfg: Config, s: State, s': State, t: Task)
    requires Extends(s, s') && TaskOK(cfg, s, t)
    ensures TaskOK(cfg, s', t)
  {
    assert s.owners[t.conn] == s'.owners[t.conn];
    if t.Reporting? {
      if t.reply.Some? {
        RepliedMono(cfg, s, s', t.conn, t.reply.value);
      }
    } else {
      AskedMono(s, s', t.conn, t.msg);
      if t.Awaiting? {
        RelayMono(s, s', t.conn, t.msg, t.hs);
      }
    }
  }

  lemma RelayMono(s: State, s': State, conn: nat, msg: Message, hs: seq<nat>)
    requires Extends(s, s') && RelayOK(s, conn, msg, hs)
    ensures RelayOK(s', conn, msg, hs)
  {
    FitMono(s, s', conn, msg, hs);
    if ServerRoute(msg).FanOut? {
      var f :| AsksEveryPeer(s, conn, msg, hs, f);
      AsksMono(s, s', conn, msg, hs, f);
    }
  }

  lemma FitMono(s: State, s': State, conn: nat, msg: Message, hs: seq<nat>)
    requires Extends(s, s') && CallsFit(s, conn, msg, hs)
    ensures CallsFit(s', conn, msg, hs)
  {
  }

  lemma AsksMono(s: State, s': State, conn: nat, msg: Message, hs: seq<nat>, f: TakenUp)
    requires Extends(s, s') && (forall j :: 0 <= j < |hs| ==> hs[j] < |s.calls|) && AsksEveryPeer(s, conn, msg, hs, f)
    ensures AsksEveryPeer(s', conn, msg, hs, f)
  {
    TookUpMono(WorldOf(s), WorldOf(s'), conn, msg, f);
    forall k | k in f.peers && k != conn ensures exists j :: 0 <= j < |hs| && s'.calls[hs[j]].conn == k {
      var j :| 0 <= j < |hs| && s.calls[hs[j]].conn == k;
      assert s'.calls[hs[j]].conn == k;
    }
  }

  lemma PostMono(cfg: Config, s: State, s': State, p: Post)
    requires Extends(s, s') && PostOK(cfg, s, p)
    ensures PostOK(cfg, s', p)
  {
    ReturnsMono(cfg, WorldOf(s), WorldOf(s'), s.calls[p.call], s'.calls[p.call], Unpack(p.msg));
  }

  /** Everything that was accounted for still is; only what is new remains to
      be looked at. */
  lemma Kept(cfg: Config, s: State, s': State)
    requires Extends(s, s')
    ensures WireOK(cfg, s) ==> forall f :: f in s.wire ==> FrameOK(cfg, s', f)
    ensures TasksOK(cfg, s) ==> forall t :: t in s.tasks ==> TaskOK(cfg, s', t)
    ensures PostsOK(cfg, s) ==> forall p :: p in s.posts ==> PostOK(cfg, s', p)
  {
    forall f | f in s.wire && FrameOK(cfg, s, f) ensures FrameOK(cfg, s', f) {
      FrameMono(cfg, s, s', f);
    }
    forall t | t in s.tasks && TaskOK(cfg, s, t) ensures TaskOK(cfg, s', t) {
      TaskMono(cfg, s, s', t);
    }
    forall p | p in s.posts && PostOK(cfg, s, p) ensures PostOK(cfg, s', p) {
      PostMono(cfg, s, s', p);
    }
  }
}
