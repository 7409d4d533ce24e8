/** Over every run, each client request is answered by exactly one reply unless
    it is lost: at any time it is one frame, one goroutine or one reply. */
module OneReply {
  import opened Wrappers
  import opened RpcTypes
  import opened Dispatch
  import opened Network
  import opened Sums
  import opened Provenance
  import opened NetworkSteps
  import opened NetworkTasks
  import opened NetworkTheorems

  // ----- tokens: what can still become a reply with a given id -----

  function FrameToken(conn: nat, key: string): Frame -> nat {
    (f: Frame) =>
      if f.up && f.conn == conn && f.packet.Envelope? && f.packet.msg.methodName != "" && f.packet.msg.id == key
      then 1 else 0
  }

  function TaskToken(conn: nat, key: string): Task -> nat {
    (t: Task) =>
      match t
      case AtClient(_, _) => 0
      case AtServer(k, msg) => if k == conn && msg.id == key then 1 else 0
      case Awaiting(k, msg, _) => if k == conn && msg.id == key then 1 else 0
      case Reporting(k, _, reply) => if k == conn && reply.Some? && reply.value.id == key then 1 else 0
  }

  function Tokens(s: State, conn: nat, key: string): nat {
    Sum(s.wire, FrameToken(conn, key)) + Sum(s.tasks, TaskToken(conn, key))
  }

  /** The step writes a reply with this id to this connection. */
  predicate WritesReply(s: State, l: Label, conn: nat, key: string) {
    l.Finish? && l.t < |s.tasks| && s.tasks[l.t].Reporting? && s.tasks[l.t].conn == conn
    && s.tasks[l.t].reply.Some? && s.tasks[l.t].reply.value.id == key
  }

  /** The server's own handler ends cancelled, and the request gets no answer. */
  predicate Cancels(cfg: Config, s: State, t: nat, interrupted: bool, conn: nat, key: string) {
    && t < |s.tasks| && s.tasks[t].AtServer? && s.tasks[t].conn == conn && s.tasks[t].msg.id == key
    && var route := ServerRoute(s.tasks[t].msg);
    && route.Local? && LocalVerdict(cfg.server, route.methodName, route.params, interrupted).None?
  }

  /** The step loses a request with this id, or the reply to it: on its way to
      the server, or in the server's handler. */
  predicate Loses(cfg: Config, s: State, l: Label, conn: nat, key: string) {
    match l
    case Lose(i) => i < |s.wire| && FrameToken(conn, key)(s.wire[i]) == 1
    case RunServer(t, interrupted) => Cancels(cfg, s, t, interrupted, conn, key)
    case _ => false
  }

  function One(b: bool): nat {
    if b then 1 else 0
  }

  // ----- no step but a request's own Send makes tokens, and none vanishes -----

  lemma ReplaceTaskTokens(s: State, t: nat, task: Task, conn: nat, key: string)
    requires t < |s.tasks| && TaskToken(conn, key)(task) == TaskToken(conn, key)(s.tasks[t])
    ensures Sum(s.tasks[t := task], TaskToken(conn, key)) == Sum(s.tasks, TaskToken(conn, key))
  {
    SumUpdate(s.tasks, t, task, TaskToken(conn, key));
  }

  lemma AddFramesTokens(s: State, fs: seq<Frame>, conn: nat, key: string)
    requires forall i :: 0 <= i < |fs| ==> FrameToken(conn, key)(fs[i]) == 0
    ensures Sum(s.wire + fs, FrameToken(conn, key)) == Sum(s.wire, FrameToken(conn, key))
  {
    SumConcat(s.wire, fs, FrameToken(conn, key));
    SumBound(fs, FrameToken(conn, key), 0);
  }

  lemma ReceivingTokens(s: State, f: Frame, conn: nat, key: string)
    requires f.conn < |s.owners| && (!f.up ==> s.owners[f.conn].Some?)
    ensures Tokens(Receiving(s, f), conn, key) == Tokens(s, conn, key) + FrameToken(conn, key)(f)
  {
    match ReadLoopAction(f.packet) {
      case Reply(msg) =>
        AddFramesTokens(s, [Frame(!f.up, f.conn, Envelope(msg))], conn, key);
      case Serve(msg) =>
        var task := if f.up then AtServer(f.conn, msg) else AtClient(f.conn, msg);
        SumConcat(s.tasks, [task], TaskToken(conn, key));
        SumOne(task, TaskToken(conn, key));
      case _ =>
    }
  }

  lemma DeliverTokens(cfg: Config, s: State, i: nat, conn: nat, key: string)
    requires Enabled(s, Deliver(i))
    ensures Tokens(Apply(cfg, s, Deliver(i)), conn, key) == Tokens(s, conn, key)
  {
    SumRemove(s.wire, i, FrameToken(conn, key));
    ReceivingTokens(s.(wire := RemoveAt(s.wire, i)), s.wire[i], conn, key);
  }

  lemma RunClientTokens(cfg: Config, s: State, t: nat, conn: nat, key: string)
    requires Enabled(s, RunClient(t))
    ensures Tokens(Apply(cfg, s, RunClient(t)), conn, key) == Tokens(s, conn, key)
  {
    var task := s.tasks[t];
    var reply := ClientReply(cfg.client(s.owners[task.conn].value), task.msg);
    SumRemove(s.tasks, t, TaskToken(conn, key));
    AddFramesTokens(s, if reply.Some? then [Frame(true, task.conn, Envelope(reply.value))] else [], conn, key);
  }

  lemma SpeakingTokens(s: State, t: nat, v: Option<Verdict>, conn: nat, key: string)
    requires t < |s.tasks| && s.tasks[t].AtServer? && HasID(key)
    ensures Tokens(Speaking(s, t, v), conn, key) +
      One(v.None? && s.tasks[t].conn == conn && s.tasks[t].msg.id == key) == Tokens(s, conn, key)
  {
    var task := s.tasks[t];
    SumUpdate(s.tasks, t, Reporting(task.conn, [], Answered(task.msg, v)), TaskToken(conn, key));
  }

  lemma RelayingTokens(s: State, t: nat, targets: seq<nat>, m: string, params: Params, conn: nat, key: string)
    requires t < |s.tasks| && s.tasks[t].AtServer?
    ensures Tokens(Relaying(s, t, targets, m, params), conn, key) == Tokens(s, conn, key)
  {
    var task := s.tasks[t];
    ReplaceTaskTokens(s, t, Awaiting(task.conn, task.msg, Handles(|s.calls|, |targets|)), conn, key);
  }

  lemma ServingTokens(cfg: Config, s: State, t: nat, interrupted: bool, conn: nat, key: string)
    requires t < |s.tasks| && s.tasks[t].AtServer? && HasID(key)
    ensures Tokens(Serving(cfg, s, t, interrupted), conn, key) + One(Cancels(cfg, s, t, interrupted, conn, key))
      == Tokens(s, conn, key)
  {
    match ServerRoute(s.tasks[t].msg) {
      case Answer(v) => SpeakingTokens(s, t, Some(v), conn, key);
      case ListPeers => SpeakingTokens(s, t, Some(PeersVerdict(Names(Members(|s.owners|, s.open)))), conn, key);
      case Local(m, params) => SpeakingTokens(s, t, LocalVerdict(cfg.server, m, params, interrupted), conn, key);
      case Unicast(target, _, m, params) =>
        var k := PeerNamed(|s.owners|, s.open, target);
        if k.None? {
          SpeakingTokens(s, t, Some(PeerNotFound(target)), conn, key);
        } else {
          RelayingTokens(s, t, [k.value], m, params, conn, key);
        }
      case FanOut(_, m, params) =>
        var targets := Members(|s.owners|, s.open - {s.tasks[t].conn});
        if targets == [] {
          SpeakingTokens(s, t, Some(NoPeers), conn, key);
        } else {
          RelayingTokens(s, t, targets, m, params, conn, key);
        }
    }
  }

  /** A relay ends with an answer to the request it served. */
  lemma CollectingAnswers(cfg: Config, s: State, t: nat, order: seq<nat>)
    requires Enabled(s, Collect(t, order)) && TaskOK(cfg, s, s.tasks[t])
    ensures var task' := Collecting(s, t, order).tasks[t];
      && Collecting(s, t, order) == s.(tasks := s.tasks[t := task'])
      && task'.Reporting? && task'.conn == s.tasks[t].conn
      && (task'.reply.Some? <==> HasID(s.tasks[t].msg.id))
      && (task'.reply.Some? ==> task'.reply.value.id == s.tasks[t].msg.id)
  {
  }

  lemma CollectTokens(cfg: Config, s: State, t: nat, order: seq<nat>, conn: nat, key: string)
    requires Inv(cfg, s) && Enabled(s, Collect(t, order)) && HasID(key)
    ensures Tokens(Apply(cfg, s, Collect(t, order)), conn, key) == Tokens(s, conn, key)
  {
    assert s.tasks[t] in s.tasks;
    CollectingAnswers(cfg, s, t, order);
    ReplaceTaskTokens(s, t, Collecting(s, t, order).tasks[t], conn, key);
  }

  lemma EmitTokens(cfg: Config, s: State, t: nat, conn: nat, key: string)
    requires Enabled(s, Emit(t))
    ensures Tokens(Apply(cfg, s, Emit(t)), conn, key) == Tokens(s, conn, key)
  {
    var task := s.tasks[t];
    var ks := Members(|s.owners|, s.open - task.notes[0].exclude);
    ReplaceTaskTokens(s, t, task.(notes := task.notes[1..]), conn, key);
    AddFramesTokens(s, Broadcast(ks, task.notes[0].msg), conn, key);
  }

  /** Writing the reply uses the token up. */
  lemma FinishTokens(cfg: Config, s: State, t: nat, conn: nat, key: string)
    requires Enabled(s, Finish(t))
    ensures Tokens(Apply(cfg, s, Finish(t)), conn, key) + One(WritesReply(s, Finish(t), conn, key)) == Tokens(s, conn, key)
  {
    var task := s.tasks[t];
    SumRemove(s.tasks, t, TaskToken(conn, key));
    AddFramesTokens(s, if task.reply.Some? then [Frame(false, task.conn, Envelope(task.reply.value))] else [], conn, key);
  }

  lemma TaskStepTokens(cfg: Config, s: State, l: Label, conn: nat, key: string)
    requires Inv(cfg, s) && Enabled(s, l) && HasID(key)
    requires l.RunClient? || l.RunServer? || l.Collect? || l.Emit? || l.Finish?
    ensures Tokens(Apply(cfg, s, l), conn, key) + One(WritesReply(s, l, conn, key)) + One(Loses(cfg, s, l, conn, key))
      == Tokens(s, conn, key)
  {
    match l {
      case RunClient(t) => RunClientTokens(cfg, s, t, conn, key);
      case RunServer(t, interrupted) => ServingTokens(cfg, Noted(s, t), t, interrupted, conn, key);
      case Collect(t, order) => CollectTokens(cfg, s, t, order, conn, key);
      case Emit(t) => EmitTokens(cfg, s, t, conn, key);
      case Finish(t) => FinishTokens(cfg, s, t, conn, key);
    }
  }

  lemma EnvironmentTokens(cfg: Config, s: State, l: Label, conn: nat, key: string)
    requires Enabled(s, l) && !Internal(l) && conn < |s.owners| && s.owners[conn].Some?
    ensures Tokens(Apply(cfg, s, l), conn, key) + One(Loses(cfg, s, l, conn, key)) == Tokens(s, conn, key)
  {
    match l {
      case Lose(i) => SumRemove(s.wire, i, FrameToken(conn, key));
      case Inject(k, packet) => AddFramesTokens(s, [Frame(true, k, packet)], conn, key);
      case _ =>
    }
  }

  /** On a client's connection no step but Send makes a token, and a token goes
      only when a reply is written or the request is lost. */
  lemma StepTokens(cfg: Config, s: State, l: Label, conn: nat, key: string)
    requires Inv(cfg, s) && Enabled(s, l) && !l.Send? && conn < |s.owners| && s.owners[conn].Some? && HasID(key)
    ensures Tokens(Apply(cfg, s, l), conn, key) + One(WritesReply(s, l, conn, key)) + One(Loses(cfg, s, l, conn, key))
      == Tokens(s, conn, key)
  {
    if !Internal(l) {
      EnvironmentTokens(cfg, s, l, conn, key);
    } else if l.Deliver? {
      DeliverTokens(cfg, s, l.i, conn, key);
    } else if l.RunClient? || l.RunServer? || l.Collect? || l.Emit? || l.Finish? {
      TaskStepTokens(cfg, s, l, conn, key);
    }
  }

  lemma SendTokens(cfg: Config, s: State, g: nat, conn: nat, key: string)
    requires Enabled(s, Send(g)) && s.calls[g].methodName != ""
    ensures var c := s.calls[g];
      Tokens(Apply(cfg, s, Send(g)), conn, key) ==
        Tokens(s, conn, key) + One(c.origin.FromClient? && c.conn == conn && Key(c) == key)
  {
    var c := s.calls[g];
    var f := Frame(c.origin.FromClient?, c.conn, Envelope(RequestOf(c)));
    SumConcat(s.wire, [f], FrameToken(conn, key));
    SumOne(f, FrameToken(conn, key));
  }

  // ----- a fresh key has no tokens -----

  lemma UnusedKeyHasNoTokens(cfg: Config, s: State, h: nat, n: nat)
    requires Inv(cfg, s) && h < |s.calls| && s.calls[h].origin.FromClient?
    requires forall g :: 0 <= g < |s.calls| && s.calls[g].origin == s.calls[h].origin && s.calls[g].number > 0 ==>
      s.calls[g].number != n
    ensures Tokens(s, s.calls[h].conn, MintedID('c', n)) == 0
  {
    var conn, key := s.calls[h].conn, MintedID('c', n);
    assert CallOK(cfg, s, s.calls[h]);
    forall msg | AskedByClient(s, conn, msg) || RepliedByServer(cfg, s, conn, msg) ensures msg.id != key {
      UnusedKeyUnasked(cfg, s, h, n, msg);
    }
    forall i | 0 <= i < |s.wire| ensures FrameToken(conn, key)(s.wire[i]) == 0 {
      assert s.wire[i] in s.wire;
      assert FrameOK(cfg, s, s.wire[i]);
    }
    forall i | 0 <= i < |s.tasks| ensures TaskToken(conn, key)(s.tasks[i]) == 0 {
      assert s.tasks[i] in s.tasks;
      assert TaskOK(cfg, s, s.tasks[i]);
    }
    SumBound(s.wire, FrameToken(conn, key), 0);
    SumBound(s.tasks, TaskToken(conn, key), 0);
  }

  /** Every request and reply on a client's connection bears the key of one of
      that client's numbered calls. */
  lemma BearsAKey(cfg: Config, s: State, conn: nat, msg: Message) returns (g: nat)
    requires CallsOK(cfg, s) && conn < |s.owners|
    requires AskedByClient(s, conn, msg) || RepliedByServer(cfg, s, conn, msg)
    ensures g < |s.calls| && s.calls[g].number > 0 && msg.id == Key(s.calls[g])
    ensures s.calls[g].origin.FromClient? && s.owners[conn] == Some(s.calls[g].origin.client)
  {
    if AskedByClient(s, conn, msg) {
      g :| 0 <= g < |s.calls| && IsClientRequest(s.calls[g], conn, msg);
    } else {
      g :| 0 <= g < |s.calls| && IsServerReply(cfg, WorldOf(s), s.calls[g], conn, msg);
    }
    assert CallOK(cfg, s, s.calls[g]);
  }

  lemma UnusedKeyUnasked(cfg: Config, s: State, h: nat, n: nat, msg: Message)
    requires CallsOK(cfg, s) && h < |s.calls| && s.calls[h].origin.FromClient? && s.calls[h].conn < |s.owners|
    requires forall g :: 0 <= g < |s.calls| && s.calls[g].origin == s.calls[h].origin && s.calls[g].number > 0 ==>
      s.calls[g].number != n
    requires AskedByClient(s, s.calls[h].conn, msg) || RepliedByServer(cfg, s, s.calls[h].conn, msg)
    ensures msg.id != MintedID('c', n)
  {
    var g := BearsAKey(cfg, s, s.calls[h].conn, msg);
    assert CallOK(cfg, s, s.calls[h]);
    if msg.id == MintedID('c', n) {
      MintedInjective('c', s.calls[g].number, 'c', n);
    }
  }

  // ----- one reply -----

  /** 1 while the call has yet to write its request, then its tokens. */
  function Potential(s: State, h: nat): nat
    requires h < |s.calls|
  {
    var c := s.calls[h];
    if c.stage.Taken? then 1
    else One(c.stage.Numbered? || c.stage.Registered?) + Tokens(s, c.conn, Key(c))
  }

  /** The step writes a reply to call h. */
  predicate RepliesTo(s: State, l: Label, h: nat)
    requires h < |s.calls|
  {
    s.calls[h].number > 0 && WritesReply(s, l, s.calls[h].conn, Key(s.calls[h]))
  }

  /** The step loses call h's request: the write fails, the frame is lost with
      its connection, or the server's handler ends cancelled. */
  predicate LosesCall(cfg: Config, s: State, l: Label, h: nat)
    requires h < |s.calls|
  {
    || (l.SendFails? && l.h == h)
    || (s.calls[h].number > 0 && Loses(cfg, s, l, s.calls[h].conn, Key(s.calls[h])))
  }

  /** A call made by a client that has its connection. */
  predicate ClientCall(s: State, h: nat) {
    && h < |s.calls| && s.calls[h].origin.FromClient? && !s.calls[h].stage.Looking?
    && (s.calls[h].stage.Taken? || s.calls[h].number > 0)
  }

  lemma OthersSendNoToken(cfg: Config, s: State, g: nat, h: nat)
    requires Inv(cfg, s) && Enabled(s, Send(g)) && h < |s.calls| && g != h && s.calls[h].origin.FromClient?
    ensures Tokens(Apply(cfg, s, Send(g)), s.calls[h].conn, Key(s.calls[h])) == Tokens(s, s.calls[h].conn, Key(s.calls[h]))
  {
    assert CallOK(cfg, s, s.calls[g]) && CallOK(cfg, s, s.calls[h]);
    NonBlank(s.calls[g].methodName);
    SendTokens(cfg, s, g, s.calls[h].conn, Key(s.calls[h]));
    if s.calls[g].origin == s.calls[h].origin && Key(s.calls[g]) == Key(s.calls[h]) {
      KeysIdentifyCalls(s, g, h);
    }
  }

  lemma OwnStepPotential(cfg: Config, s: State, l: Label, h: nat)
    requires Inv(cfg, s) && Enabled(s, l) && ClientCall(s, h) && (l == DrawNumber(h) || l == Send(h))
    ensures ClientCall(Apply(cfg, s, l), h) && Potential(Apply(cfg, s, l), h) == Potential(s, h)
  {
    assert CallOK(cfg, s, s.calls[h]);
    if l.Send? {
      NonBlank(s.calls[h].methodName);
      SendTokens(cfg, s, h, s.calls[h].conn, Key(s.calls[h]));
    } else {
      NextKeyHasNoTokens(cfg, s, h);
    }
  }

  lemma NextKeyHasNoTokens(cfg: Config, s: State, h: nat)
    requires Inv(cfg, s) && h < |s.calls| && s.calls[h].origin.FromClient?
    ensures Tokens(s, s.calls[h].conn, MintedID('c', Counter(s, s.calls[h].origin) + 1)) == 0
  {
    var n := Counter(s, s.calls[h].origin) + 1;
    forall g | 0 <= g < |s.calls| && s.calls[g].origin == s.calls[h].origin && s.calls[g].number > 0
      ensures s.calls[g].number != n
    {
      assert CallOK(cfg, s, s.calls[g]);
    }
    UnusedKeyHasNoTokens(cfg, s, h, n);
  }

  /** A step other than the call's own first ones keeps its key, and its place
      before or after the writing of its request. */
  lemma CallGoesOn(cfg: Config, s: State, l: Label, h: nat)
    requires Enabled(s, l) && ClientCall(s, h) && l != DrawNumber(h) && l != Send(h)
    ensures ClientCall(Apply(cfg, s, l), h)
    ensures var c, c' := s.calls[h], Apply(cfg, s, l).calls[h];
      && c'.origin == c.origin && c'.conn == c.conn && c'.number == c.number
      && (c'.stage.Taken? <==> c.stage.Taken?)
      && (c'.stage.Numbered? || c'.stage.Registered? <==>
            (c.stage.Numbered? || c.stage.Registered?) && !(l.SendFails? && l.h == h))
  {
    if l.RunServer? {
      ServingKeepsCalls(cfg, Noted(s, l.t), l.t, l.interrupted);
    } else if l.Collect? {
      CollectingKeepsCalls(s, l.t, l.order);
    } else if l.Deliver? || l.RunClient? || l.Emit? || l.Finish? {
      OthersKeepCalls(cfg, s, l);
    }
  }

  lemma OtherStepTokens(cfg: Config, s: State, l: Label, h: nat)
    requires Inv(cfg, s) && Enabled(s, l) && ClientCall(s, h) && s.calls[h].number > 0 && l != Send(h)
    ensures var conn, key := s.calls[h].conn, Key(s.calls[h]);
      Tokens(Apply(cfg, s, l), conn, key) + One(WritesReply(s, l, conn, key)) + One(Loses(cfg, s, l, conn, key))
        == Tokens(s, conn, key)
  {
    assert CallOK(cfg, s, s.calls[h]);
    KeyIsIdKey(s.calls[h]);
    if l.Send? {
      OthersSendNoToken(cfg, s, l.h, h);
    } else {
      StepTokens(cfg, s, l, s.calls[h].conn, Key(s.calls[h]));
    }
  }

  /** The accounts of a step, from what it does to the call and to its tokens. */
  lemma SpentByStep(s: State, s': State, h: nat, replied: bool, dropped: bool, failed: bool)
    requires h < |s.calls| && h < |s'.calls| && !s.calls[h].stage.Taken? && !s'.calls[h].stage.Taken?
    requires var c, c' := s.calls[h], s'.calls[h];
      && c'.origin == c.origin && c'.conn == c.conn && c'.number == c.number
      && (c'.stage.Numbered? || c'.stage.Registered? <==> (c.stage.Numbered? || c.stage.Registered?) && !failed)
      && (failed ==> c.stage.Registered? && !dropped)
      && Tokens(s', c.conn, Key(c)) + One(replied) + One(dropped) == Tokens(s, c.conn, Key(c))
    ensures Potential(s', h) + One(replied) + One(failed || dropped) == Potential(s, h)
  {
  }

  lemma NumberedStepPotential(cfg: Config, s: State, l: Label, h: nat, s': State)
    requires Inv(cfg, s) && Enabled(s, l) && ClientCall(s, h) && s' == Apply(cfg, s, l)
    requires s.calls[h].number > 0 && !s.calls[h].stage.Taken? && l != DrawNumber(h) && l != Send(h)
    ensures ClientCall(s', h)
    ensures Potential(s', h) + One(RepliesTo(s, l, h)) + One(LosesCall(cfg, s, l, h)) == Potential(s, h)
  {
    CallGoesOn(cfg, s, l, h);
    OtherStepTokens(cfg, s, l, h);
    var failed := l.SendFails? && l.h == h;
    var dropped := Loses(cfg, s, l, s.calls[h].conn, Key(s.calls[h]));
    SpentByStep(s, s', h, WritesReply(s, l, s.calls[h].conn, Key(s.calls[h])), dropped, failed);
  }

  lemma StepPotential(cfg: Config, s: State, l: Label, h: nat)
    requires Inv(cfg, s) && Enabled(s, l) && ClientCall(s, h)
    ensures ClientCall(Apply(cfg, s, l), h)
    ensures Potential(Apply(cfg, s, l), h) + One(RepliesTo(s, l, h)) + One(LosesCall(cfg, s, l, h)) == Potential(s, h)
  {
    assert CallOK(cfg, s, s.calls[h]);
    if l == DrawNumber(h) || l == Send(h) {
      OwnStepPotential(cfg, s, l, h);
    } else if s.calls[h].stage.Taken? {
      CallGoesOn(cfg, s, l, h);
    } else {
      NumberedStepPotential(cfg, s, l, h, Apply(cfg, s, l));
    }
  }

  /** How many replies a run writes to call h. */
  function ReplyCount(cfg: Config, s: State, ls: seq<Label>, h: nat): nat
    requires Runs(cfg, s, ls) && h < |s.calls|
    decreases |ls|
  {
    if ls == [] then 0
    else
      One(RepliesTo(s, ls[0], h)) +
      (if h < |Apply(cfg, s, ls[0]).calls| then ReplyCount(cfg, Apply(cfg, s, ls[0]), ls[1..], h) else 0)
  }

  /** How often a run loses call h's request. */
  function LossCount(cfg: Config, s: State, ls: seq<Label>, h: nat): nat
    requires Runs(cfg, s, ls) && h < |s.calls|
    decreases |ls|
  {
    if ls == [] then 0
    else
      One(LosesCall(cfg, s, ls[0], h)) +
      (if h < |Apply(cfg, s, ls[0]).calls| then LossCount(cfg, Apply(cfg, s, ls[0]), ls[1..], h) else 0)
  }

  lemma {:induction false} PotentialIsSpent(cfg: Config, s: State, ls: seq<Label>, h: nat)
    requires Inv(cfg, s) && Runs(cfg, s, ls) && ClientCall(s, h)
    ensures ClientCall(Exec(cfg, s, ls), h)
    ensures Potential(Exec(cfg, s, ls), h) + ReplyCount(cfg, s, ls, h) + LossCount(cfg, s, ls, h) == Potential(s, h)
    decreases |ls|
  {
    if ls != [] {
      StepPotential(cfg, s, ls[0], h);
      StepKeepsInv(cfg, s, ls[0]);
      PotentialIsSpent(cfg, Apply(cfg, s, ls[0]), ls[1..], h);
    }
  }

  /** The call has written its request, and nothing of it is in flight: no frame
      to the server, no goroutine, no reply being prepared. */
  predicate Settled(s: State, h: nat)
    requires h < |s.calls|
  {
    var c := s.calls[h];
    !c.stage.Taken? && !c.stage.Numbered? && !c.stage.Registered? && Tokens(s, c.conn, Key(c)) == 0
  }

  /** From the moment a client makes a call, whatever else happens, its request
      is at any time exactly one of: still in flight, answered by one reply, or
      lost once. Once settled it was answered exactly once, or lost. */
  lemma ExactlyOneReply(cfg: Config, s: State, ls: seq<Label>, h: nat)
    requires Reachable(cfg, s) && Runs(cfg, s, ls)
    requires ClientCall(s, h) && s.calls[h].stage.Taken?
    ensures h < |Exec(cfg, s, ls).calls|
    ensures ReplyCount(cfg, s, ls, h) + LossCount(cfg, s, ls, h) == One(Settled(Exec(cfg, s, ls), h))
  {
    ReachableInv(cfg, s);
    PotentialIsSpent(cfg, s, ls, h);
  }
}
