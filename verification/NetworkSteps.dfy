/** Each step of the network keeps the provenance invariant. */
module NetworkSteps {
  import opened Wrappers
  import opened Text
  import opened RpcTypes
  import opened Dispatch
  import opened Network
  import opened Sums
  import opened Provenance

  // ----- keys identify calls -----

  /** Two numbered calls of the same origin with the same key are one call. */
  lemma KeysIdentifyCalls(s: State, g: nat, h: nat)
    requires NumbersDistinct(s) && g < |s.calls| && h < |s.calls|
    requires s.calls[g].number > 0 && s.calls[g].origin == s.calls[h].origin
    requires Key(s.calls[g]) == Key(s.calls[h])
    ensures g == h
  {
    MintedInjective(Prefix(s.calls[g].origin), s.calls[g].number, Prefix(s.calls[h].origin), s.calls[h].number);
  }

  lemma KeyIsIdKey(c: Call)
    ensures HasID(Key(c)) && IdKey(Key(c)) == Some(Key(c))
  {
    IdRoundTrip([Prefix(c.origin)] + Decimal(c.number));
  }

  // ----- changing one part of the state -----

  lemma SetWire(cfg: Config, s: State, w: seq<Frame>)
    requires Inv(cfg, s) && forall f :: f in w ==> f in s.wire || FrameOK(cfg, s, f)
    ensures Inv(cfg, s.(wire := w))
  {
    Kept(cfg, s, s.(wire := w));
    forall f | f in w ensures FrameOK(cfg, s.(wire := w), f) {
      FrameMono(cfg, s, s.(wire := w), f);
    }
    CallsKept(cfg, s, s.(wire := w));
  }

  lemma SetTasks(cfg: Config, s: State, ts: seq<Task>)
    requires Inv(cfg, s) && forall t :: t in ts ==> t in s.tasks || TaskOK(cfg, s, t)
    ensures Inv(cfg, s.(tasks := ts))
  {
    Kept(cfg, s, s.(tasks := ts));
    forall t | t in ts ensures TaskOK(cfg, s.(tasks := ts), t) {
      TaskMono(cfg, s, s.(tasks := ts), t);
    }
    CallsKept(cfg, s, s.(tasks := ts));
  }

  lemma SetPosts(cfg: Config, s: State, ps: seq<Post>)
    requires Inv(cfg, s) && forall p :: p in ps ==> p in s.posts || PostOK(cfg, s, p)
    ensures Inv(cfg, s.(posts := ps))
  {
    Kept(cfg, s, s.(posts := ps));
    forall p | p in ps ensures PostOK(cfg, s.(posts := ps), p) {
      PostMono(cfg, s, s.(posts := ps), p);
    }
    CallsKept(cfg, s, s.(posts := ps));
  }

  lemma SetPending(cfg: Config, s: State, pending: map<(TableId, string), nat>)
    requires Inv(cfg, s) && TablesOK(s.(pending := pending))
    ensures Inv(cfg, s.(pending := pending))
  {
    Kept(cfg, s, s.(pending := pending));
    CallsKept(cfg, s, s.(pending := pending));
  }

  ghost predicate CountersGrow(s: State, s': State) {
    forall o :: Counter(s, o) <= Counter(s', o)
  }

  /** Calls that a step does not touch stay accounted for. */
  lemma CallMono(cfg: Config, s: State, s': State, c: Call)
    requires Grows(WorldOf(s), WorldOf(s')) && CountersGrow(s, s') && CallOK(cfg, s, c)
    ensures CallOK(cfg, s', c)
  {
    assert s.owners[c.conn] == s'.owners[c.conn];
    if c.slot.Some? {
      ReturnsMono(cfg, WorldOf(s), WorldOf(s'), c, c, Unpack(c.slot.value));
    }
    if c.stage.Finished? || c.stage.Gone? {
      ReturnsMono(cfg, WorldOf(s), WorldOf(s'), c, c, c.stage.result);
    }
  }

  lemma CallsKept(cfg: Config, s: State, s': State)
    requires Grows(WorldOf(s), WorldOf(s')) && CountersGrow(s, s') && CallsOK(cfg, s)
    ensures forall h :: 0 <= h < |s.calls| ==> CallOK(cfg, s', s.calls[h])
  {
    forall h | 0 <= h < |s.calls| ensures CallOK(cfg, s', s.calls[h]) {
      CallMono(cfg, s, s', s.calls[h]);
    }
  }

  /** A changed call keeps what its frames, tasks and posts rest on. */
  lemma ChangedCall(cfg: Config, s: State, c: Call, c': Call)
    requires CallOK(cfg, s, c) && SameCall(c, c') && c'.slot == c.slot
    requires c'.number <= Counter(s, c.origin)
    requires c'.stage.Looking? || c'.stage.Taken? ==> c'.number == 0
    requires c'.stage.Numbered? || Entered(c') ==> c'.number > 0
    requires c'.stage.Finished? || c'.stage.Gone? ==> Returns(cfg, WorldOf(s), c, c'.stage.result)
    ensures CallOK(cfg, s, c')
  {
    if c.slot.Some? {
      ReturnsMono(cfg, WorldOf(s), WorldOf(s), c, c', Unpack(c.slot.value));
    }
    if c'.stage.Finished? || c'.stage.Gone? {
      ReturnsMono(cfg, WorldOf(s), WorldOf(s), c, c', c'.stage.result);
    }
  }

  /** Everything but the pending table survives a change of one call; the table
      is given separately, because a call's entry changes with its stage. */
  lemma SetCall(cfg: Config, s: State, h: nat, c': Call, pending: map<(TableId, string), nat>)
    requires Inv(cfg, s) && h < |s.calls| && SameCall(s.calls[h], c') && CallOK(cfg, s, c')
    requires c'.number == s.calls[h].number
    requires TablesOK(s.(calls := s.calls[h := c'], pending := pending))
    ensures Inv(cfg, s.(calls := s.calls[h := c'], pending := pending))
  {
    var s' := s.(calls := s.calls[h := c'], pending := pending);
    Kept(cfg, s, s');
    CallsKept(cfg, s, s');
    CallMono(cfg, s, s', c');
  }

  // ----- Invoke -----

  /** A change of stage within the table, or outside it, leaves it valid. */
  lemma SetStageKeeps(cfg: Config, s: State, h: nat, st: Stage)
    requires Inv(cfg, s) && h < |s.calls|
    requires CallOK(cfg, s, s.calls[h].(stage := st))
    requires Entered(s.calls[h]) ==> Entered(s.calls[h].(stage := st))
    ensures Inv(cfg, SetStage(s, h, st))
  {
    SetCall(cfg, s, h, s.calls[h].(stage := st), s.pending);
  }

  lemma LookUpKeeps(cfg: Config, s: State, h: nat)
    requires Inv(cfg, s) && Enabled(s, LookUp(h))
    ensures Inv(cfg, Apply(cfg, s, LookUp(h)))
  {
    var c := s.calls[h];
    var st := if c.conn in s.open then Taken else Gone(Err(UnknownClient));
    assert CallOK(cfg, s, c);
    ChangedCall(cfg, s, c, c.(stage := st));
    SetStageKeeps(cfg, s, h, st);
  }

  lemma DrawNumberKeeps(cfg: Config, s: State, h: nat)
    requires Inv(cfg, s) && Enabled(s, DrawNumber(h))
    ensures Inv(cfg, Apply(cfg, s, DrawNumber(h)))
  {
    var s' := Apply(cfg, s, DrawNumber(h));
    DrawnCall(cfg, s, s', h);
    NumbersStayDistinct(cfg, s, h, s'.calls[h]);
    DrawnState(cfg, s, s', h);
  }

  lemma DrawnState(cfg: Config, s: State, s': State, h: nat)
    requires Inv(cfg, s) && h < |s.calls| && s.calls[h].stage.Taken? && s.calls[h].number == 0
    requires |s'.calls| == |s.calls| && s' == s.(counters := s'.counters, calls := s.calls[h := s'.calls[h]])
    requires SameCall(s.calls[h], s'.calls[h]) && CountersGrow(s, s') && CallOK(cfg, s', s'.calls[h]) && NumbersDistinct(s')
    ensures Inv(cfg, s')
  {
    Kept(cfg, s, s');
    CallsKept(cfg, s, s');
  }

  lemma DrawnCall(cfg: Config, s: State, s': State, h: nat)
    requires h < |s.calls| && CallOK(cfg, s, s.calls[h]) && s.calls[h].stage.Taken?
    requires WorldOf(s') == WorldOf(s) && h < |s'.calls|
    requires var n := Counter(s, s.calls[h].origin) + 1;
      s'.counters == s.counters[s.calls[h].origin := n] && s'.calls[h] == s.calls[h].(number := n, stage := Numbered)
    ensures CountersGrow(s, s') && CallOK(cfg, s', s'.calls[h])
  {
    CallMono(cfg, s, s', s.calls[h]);
    ChangedCall(cfg, s', s.calls[h], s'.calls[h]);
  }

  lemma NumbersStayDistinct(cfg: Config, s: State, h: nat, c': Call)
    requires CallsOK(cfg, s) && NumbersDistinct(s) && h < |s.calls|
    requires c'.origin == s.calls[h].origin && c'.number > Counter(s, c'.origin)
    ensures NumbersDistinct(s.(calls := s.calls[h := c']))
  {
    assert forall g :: 0 <= g < |s.calls| ==> CallOK(cfg, s, s.calls[g]);
  }

  lemma RegisterKeeps(cfg: Config, s: State, h: nat)
    requires Inv(cfg, s) && Enabled(s, Register(h))
    ensures Inv(cfg, Apply(cfg, s, Register(h)))
  {
    var c := s.calls[h];
    assert CallOK(cfg, s, c);
    ChangedCall(cfg, s, c, c.(stage := Registered));
    SetCall(cfg, s, h, c.(stage := Registered), s.pending[EntryKey(c) := h]);
  }

  lemma SendKeeps(cfg: Config, s: State, h: nat)
    requires Inv(cfg, s) && Enabled(s, Send(h))
    ensures Inv(cfg, Apply(cfg, s, Send(h)))
  {
    var c := s.calls[h];
    assert CallOK(cfg, s, c);
    ChangedCall(cfg, s, c, c.(stage := Waiting));
    SetStageKeeps(cfg, s, h, Waiting);
    var s1 := SetStage(s, h, Waiting);
    OwnRequestOK(cfg, s1, h);
    SetWire(cfg, s1, s.wire + [Frame(c.origin.FromClient?, c.conn, Envelope(RequestOf(c)))]);
  }

  lemma OwnRequestOK(cfg: Config, s: State, h: nat)
    requires h < |s.calls| && CallOK(cfg, s, s.calls[h]) && s.calls[h].number > 0
    ensures var c := s.calls[h]; FrameOK(cfg, s, Frame(c.origin.FromClient?, c.conn, Envelope(RequestOf(c))))
  {
    var c := s.calls[h];
    if c.origin.FromClient? {
      assert IsClientRequest(c, c.conn, RequestOf(c));
    } else {
      assert IsServerRequest(c, c.conn, RequestOf(c));
    }
  }

  /** An Invoke that ends, in whichever way, with a result it may return. */
  lemma EndKeeps(cfg: Config, s: State, h: nat, r: InvokeResult)
    requires Inv(cfg, s) && h < |s.calls| && Entered(s.calls[h])
    requires CallOK(cfg, s, s.calls[h]) ==> Returns(cfg, WorldOf(s), s.calls[h], r)
    ensures Inv(cfg, SetStage(s, h, Finished(r)))
  {
    var c := s.calls[h];
    assert CallOK(cfg, s, c);
    ChangedCall(cfg, s, c, c.(stage := Finished(r)));
    SetStageKeeps(cfg, s, h, Finished(r));
  }

  lemma RemoveKeeps(cfg: Config, s: State, h: nat)
    requires Inv(cfg, s) && Enabled(s, Remove(h))
    ensures Inv(cfg, Apply(cfg, s, Remove(h)))
  {
    var c := s.calls[h];
    assert CallOK(cfg, s, c);
    var c' := c.(stage := Gone(c.stage.result));
    ChangedCall(cfg, s, c, c');
    SetCall(cfg, s, h, c', s.pending - {EntryKey(c)});
  }

  lemma InvokeStepKeeps(cfg: Config, s: State, l: Label)
    requires Inv(cfg, s) && Enabled(s, l)
    requires l.LookUp? || l.DrawNumber? || l.Register? || l.Send? || l.SendFails? || l.Receive? || l.Abandon? || l.Remove?
    ensures Inv(cfg, Apply(cfg, s, l))
  {
    match l {
      case LookUp(h) => LookUpKeeps(cfg, s, h);
      case DrawNumber(h) => DrawNumberKeeps(cfg, s, h);
      case Register(h) => RegisterKeeps(cfg, s, h);
      case Send(h) => SendKeeps(cfg, s, h);
      case SendFails(h, err) => EndKeeps(cfg, s, h, Err(err));
      case Receive(h) => EndKeeps(cfg, s, h, Unpack(s.calls[h].slot.value));
      case Abandon(h, err) => EndKeeps(cfg, s, h, Err(err));
      case Remove(h) => RemoveKeeps(cfg, s, h);
    }
  }

  // ----- read loops and channels -----

  /** A non-blocking send into the call's channel. */
  function Filled(c: Call, msg: Message): Call {
    if c.slot.None? then c.(slot := Some(msg)) else c
  }

  lemma FilledCall(cfg: Config, s: State, c: Call, msg: Message)
    requires CallOK(cfg, s, c) && Returns(cfg, WorldOf(s), c, Unpack(msg))
    ensures CallOK(cfg, s, Filled(c, msg))
  {
    ReturnsMono(cfg, WorldOf(s), WorldOf(s), c, Filled(c, msg), Unpack(msg));
    if c.stage.Finished? || c.stage.Gone? {
      ReturnsMono(cfg, WorldOf(s), WorldOf(s), c, Filled(c, msg), c.stage.result);
    }
  }

  lemma FillKeeps(cfg: Config, s: State, j: nat)
    requires Inv(cfg, s) && Enabled(s, Fill(j))
    ensures Inv(cfg, Apply(cfg, s, Fill(j)))
  {
    var p := s.posts[j];
    assert p in s.posts;
    FilledKeeps(cfg, s, p);
    SetPosts(cfg, s.(calls := s.calls[p.call := Filled(s.calls[p.call], p.msg)]), RemoveAt(s.posts, j));
  }

  lemma FilledKeeps(cfg: Config, s: State, p: Post)
    requires Inv(cfg, s) && PostOK(cfg, s, p)
    ensures Inv(cfg, s.(calls := s.calls[p.call := Filled(s.calls[p.call], p.msg)]))
  {
    var c := s.calls[p.call];
    assert CallOK(cfg, s, c);
    FilledCall(cfg, s, c, p.msg);
    SetCall(cfg, s, p.call, Filled(c, p.msg), s.pending);
  }

  lemma NonBlank(m: string)
    requires TrimSpace(m) != ""
    ensures m != ""
  {
  }

  /** An honest peer's envelope is a request with a method, or a reply with a
      result or an error and none. */
  lemma HonestEnvelope(cfg: Config, s: State, f: Frame)
    requires CallsOK(cfg, s) && FrameOK(cfg, s, f) && Honest(s, f.conn)
    ensures var msg := f.packet.msg;
      if msg.methodName != "" then
        ReadLoopAction(f.packet) == Serve(msg) &&
        (if f.up then AskedByClient(s, f.conn, msg) else AskedByServer(s, f.conn, msg) || IsNotification(msg))
      else
        ReadLoopAction(f.packet) == Resolve(msg) && msg.jsonrpc == VERSION &&
        (if f.up then RepliedByClient(cfg, s, s.owners[f.conn].value, f.conn, msg) else RepliedByServer(cfg, s, f.conn, msg))
  {
    var msg := f.packet.msg;
    if h :| 0 <= h < |s.calls| && (IsClientRequest(s.calls[h], f.conn, msg) || IsServerRequest(s.calls[h], f.conn, msg)) {
      assert CallOK(cfg, s, s.calls[h]);
      NonBlank(s.calls[h].methodName);
    }
  }

  ghost function TableFor(s: State, f: Frame): TableId
    requires f.conn < |s.owners| && (!f.up ==> Honest(s, f.conn))
  {
    if f.up then PeerTable(f.conn) else ClientTable(s.owners[f.conn].value)
  }

  /** A reply that an honest peer wrote finds the very call it answers. */
  lemma HonestReplyFindsItsCall(cfg: Config, s: State, f: Frame, g: nat, h: nat)
    requires CallsOK(cfg, s) && NumbersDistinct(s) && f.conn < |s.owners| && Honest(s, f.conn)
    requires g < |s.calls| && s.calls[g].number > 0 && s.calls[g].conn == f.conn
    requires s.calls[g].origin.FromServer? <==> f.up
    requires h < |s.calls| && EntryKey(s.calls[h]) == (TableFor(s, f), Key(s.calls[g]))
    ensures g == h
  {
    assert CallOK(cfg, s, s.calls[g]);
    KeysIdentifyCalls(s, g, h);
  }

  lemma UnpackRespond(id: string, v: Verdict)
    ensures Unpack(CheckVersion(Respond(id, v))) == UnpackVerdict(v)
  {
  }

  lemma ClientReplyIsGenuine(cfg: Config, s: State, f: Frame, h: nat)
    requires CallsOK(cfg, s) && NumbersDistinct(s) && f.conn < |s.owners| && Honest(s, f.conn) && f.up
    requires f.packet.Envelope? && RepliedByClient(cfg, s, s.owners[f.conn].value, f.conn, f.packet.msg)
    requires h < |s.calls| && EntryKey(s.calls[h]) == (PeerTable(f.conn), f.packet.msg.id)
    ensures RelayReturns(cfg, s.owners, f.conn, s.calls[h].methodName, s.calls[h].params,
                         Unpack(CheckVersion(f.packet.msg)))
  {
    var msg, client := f.packet.msg, s.owners[f.conn].value;
    var g :| 0 <= g < |s.calls| && IsClientReply(cfg, client, s.calls[g], f.conn, msg);
    HonestReplyFindsItsCall(cfg, s, f, g, h);
    UnpackRespond(msg.id, Serves(cfg.client(client), s.calls[g].methodName, s.calls[g].params));
  }

  lemma ServerReplyIsGenuine(cfg: Config, s: State, f: Frame, h: nat)
    requires CallsOK(cfg, s) && NumbersDistinct(s) && f.conn < |s.owners| && Honest(s, f.conn) && !f.up
    requires f.packet.Envelope? && RepliedByServer(cfg, s, f.conn, f.packet.msg)
    requires h < |s.calls| && s.calls[h].conn < |s.owners|
    requires EntryKey(s.calls[h]) == (ClientTable(s.owners[f.conn].value), f.packet.msg.id)
    ensures s.calls[h].conn == f.conn
    ensures Returns(cfg, WorldOf(s), s.calls[h], Unpack(CheckVersion(f.packet.msg)))
  {
    var msg := f.packet.msg;
    var g :| 0 <= g < |s.calls| && IsServerReply(cfg, WorldOf(s), s.calls[g], f.conn, msg);
    HonestReplyFindsItsCall(cfg, s, f, g, h);
    var v :| VerdictOK(cfg, WorldOf(s), f.conn, RequestOf(s.calls[g]), v) && msg == Respond(Key(s.calls[g]), v);
    UnpackRespond(msg.id, v);
  }

  lemma ServerReplyBearsItsKey(cfg: Config, s: State, conn: nat, msg: Message)
    requires conn < |s.owners| && RepliedByServer(cfg, s, conn, msg)
    ensures IdKey(msg.id) == Some(msg.id)
  {
    var g :| 0 <= g < |s.calls| && IsServerReply(cfg, WorldOf(s), s.calls[g], conn, msg);
    KeyIsIdKey(s.calls[g]);
  }

  lemma ClientReplyBearsItsKey(cfg: Config, s: State, client: nat, conn: nat, msg: Message)
    requires RepliedByClient(cfg, s, client, conn, msg)
    ensures IdKey(msg.id) == Some(msg.id)
  {
    var g :| 0 <= g < |s.calls| && IsClientReply(cfg, client, s.calls[g], conn, msg);
    KeyIsIdKey(s.calls[g]);
  }

  /** A response that matches a pending call came over that call's own
      connection, and is one that the call may return. */
  lemma MatchIsGenuine(cfg: Config, s: State, f: Frame, h: nat)
    requires CallsOK(cfg, s) && NumbersDistinct(s) && FrameOK(cfg, s, f)
    requires f.packet.Envelope? && ReadLoopAction(f.packet).Resolve? && (!f.up ==> Honest(s, f.conn))
    requires h < |s.calls| && IdKey(f.packet.msg.id).Some?
    requires EntryKey(s.calls[h]) == (TableFor(s, f), IdKey(f.packet.msg.id).value)
    ensures s.calls[h].conn == f.conn
    ensures Returns(cfg, WorldOf(s), s.calls[h], Unpack(CheckVersion(f.packet.msg)))
  {
    assert CallOK(cfg, s, s.calls[h]);
    if Honest(s, f.conn) {
      HonestEnvelope(cfg, s, f);
      if f.up {
        ClientReplyBearsItsKey(cfg, s, s.owners[f.conn].value, f.conn, f.packet.msg);
        ClientReplyIsGenuine(cfg, s, f, h);
      } else {
        ServerReplyBearsItsKey(cfg, s, f.conn, f.packet.msg);
        ServerReplyIsGenuine(cfg, s, f, h);
      }
    }
  }

  lemma ResolveKeeps(cfg: Config, s: State, f: Frame)
    requires Inv(cfg, s) && FrameOK(cfg, s, f) && (!f.up ==> Honest(s, f.conn))
    requires f.packet.Envelope? && ReadLoopAction(f.packet).Resolve?
    ensures Inv(cfg, ResolveIn(s, TableFor(s, f), f.packet.msg))
  {
    var msg, table := f.packet.msg, TableFor(s, f);
    var key := IdKey(msg.id);
    if key.Some? && (table, key.value) in s.pending {
      var p := Post(s.pending[(table, key.value)], CheckVersion(msg));
      MatchIsGenuine(cfg, s, f, p.call);
      assert PostOK(cfg, s, p);
      SetPosts(cfg, s, s.posts + [p]);
    }
  }

  /** The read loop's reaction to a frame that is accounted for. */
  lemma ReceivingKeeps(cfg: Config, s: State, f: Frame)
    requires Inv(cfg, s) && FrameOK(cfg, s, f) && (!f.up ==> Honest(s, f.conn))
    ensures Inv(cfg, Receiving(s, f))
  {
    if Honest(s, f.conn) {
      HonestEnvelope(cfg, s, f);
    }
    match ReadLoopAction(f.packet) {
      case Ignore =>
      case Reply(msg) =>
        SetWire(cfg, s, s.wire + [Frame(!f.up, f.conn, Envelope(msg))]);
      case Serve(msg) =>
        SetTasks(cfg, s, s.tasks + [if f.up then AtServer(f.conn, msg) else AtClient(f.conn, msg)]);
      case Resolve(msg) =>
        ResolveKeeps(cfg, s, f);
    }
  }

  lemma DeliverKeeps(cfg: Config, s: State, i: nat)
    requires Inv(cfg, s) && Enabled(s, Deliver(i))
    ensures Inv(cfg, Apply(cfg, s, Deliver(i)))
  {
    var f := s.wire[i];
    assert f in s.wire;
    var s1 := s.(wire := RemoveAt(s.wire, i));
    SetWire(cfg, s, s1.wire);
    FrameMono(cfg, s, s1, f);
    ReceivingKeeps(cfg, s1, f);
  }
}
