/** Request goroutines and the environment keep the provenance invariant. */
module NetworkTasks {
  import opened Wrappers
  import opened Text
  import opened RpcTypes
  import opened RouteHints
  import opened Dispatch
  import opened Network
  import opened Sums
  import opened Provenance
  import opened NetworkSteps

  lemma ReplaceTask(cfg: Config, s: State, t: nat, task: Task)
    requires Inv(cfg, s) && t < |s.tasks| && TaskOK(cfg, s, task)
    ensures Inv(cfg, s.(tasks := s.tasks[t := task]))
  {
    SetTasks(cfg, s, s.tasks[t := task]);
  }

  /** The last step of a task: it leaves and may write frames. */
  lemma EndTask(cfg: Config, s: State, t: nat, fs: seq<Frame>)
    requires Inv(cfg, s) && t < |s.tasks| && forall f :: f in fs ==> FrameOK(cfg, s, f)
    ensures Inv(cfg, s.(tasks := RemoveAt(s.tasks, t), wire := s.wire + fs))
  {
    SetWire(cfg, s, s.wire + fs);
    SetTasks(cfg, s.(wire := s.wire + fs), RemoveAt(s.tasks, t));
  }

  // ----- the client's side -----

  lemma ServedReply(cfg: Config, s: State, conn: nat, msg: Message)
    requires CallsOK(cfg, s) && conn < |s.owners| && Honest(s, conn)
    requires AskedByServer(s, conn, msg) || IsNotification(msg)
    ensures var reply := ClientReply(cfg.client(s.owners[conn].value), msg);
      reply.Some? ==> RepliedByClient(cfg, s, s.owners[conn].value, conn, reply.value)
  {
    var client := s.owners[conn].value;
    if h :| 0 <= h < |s.calls| && IsServerRequest(s.calls[h], conn, msg) {
      var c := s.calls[h];
      assert CallOK(cfg, s, c);
      MintedRequestIsServed(cfg.client(client), c.number, c.methodName, c.params);
      assert IsClientReply(cfg, client, c, conn, ClientReply(cfg.client(client), msg).value);
    }
  }

  lemma RunClientKeeps(cfg: Config, s: State, t: nat)
    requires Inv(cfg, s) && Enabled(s, RunClient(t))
    ensures Inv(cfg, Apply(cfg, s, RunClient(t)))
  {
    var task := s.tasks[t];
    assert task in s.tasks;
    assert TaskOK(cfg, s, task);
    ServedReply(cfg, s, task.conn, task.msg);
    var reply := ClientReply(cfg.client(s.owners[task.conn].value), task.msg);
    EndTask(cfg, s, t, if reply.Some? then [Frame(true, task.conn, Envelope(reply.value))] else []);
  }

  // ----- the server's side -----

  /** A verdict the server may give makes a reply that is accounted for. */
  lemma AnsweredIsReply(cfg: Config, s: State, conn: nat, msg: Message, v: Option<Verdict>)
    requires conn < |s.owners| && (Honest(s, conn) ==> AskedByClient(s, conn, msg))
    requires v.Some? ==> VerdictOK(cfg, WorldOf(s), conn, msg, v.value)
    ensures Honest(s, conn) && Answered(msg, v).Some? ==> RepliedByServer(cfg, s, conn, Answered(msg, v).value)
  {
    if Honest(s, conn) && Answered(msg, v).Some? {
      var h :| 0 <= h < |s.calls| && IsClientRequest(s.calls[h], conn, msg);
      assert Answered(msg, v).value == Respond(Key(s.calls[h]), v.value);
      assert IsServerReply(cfg, WorldOf(s), s.calls[h], conn, Answered(msg, v).value);
    }
  }

  lemma SpeakingKeeps(cfg: Config, s: State, t: nat, v: Option<Verdict>)
    requires Inv(cfg, s) && t < |s.tasks| && s.tasks[t].AtServer?
    requires v.Some? ==> VerdictOK(cfg, WorldOf(s), s.tasks[t].conn, s.tasks[t].msg, v.value)
    ensures Inv(cfg, Speaking(s, t, v))
  {
    var task := s.tasks[t];
    assert task in s.tasks;
    assert TaskOK(cfg, s, task);
    AnsweredIsReply(cfg, s, task.conn, task.msg, v);
    ReplaceTask(cfg, s, t, Reporting(task.conn, [], Answered(task.msg, v)));
  }

  /** New calls, none of them numbered yet. */
  lemma AddCalls(cfg: Config, s: State, new_: seq<Call>)
    requires Inv(cfg, s)
    requires forall i :: 0 <= i < |new_| ==>
      CallOK(cfg, s, new_[i]) && new_[i].number == 0
    ensures Inv(cfg, s.(calls := s.calls + new_))
  {
    var s' := s.(calls := s.calls + new_);
    Kept(cfg, s, s');
    CallsKept(cfg, s, s');
    forall h | 0 <= h < |s'.calls| ensures CallOK(cfg, s', s'.calls[h]) {
      if h >= |s.calls| {
        CallMono(cfg, s, s', new_[h - |s.calls|]);
      }
    }
  }

  lemma RoutedMethodNonBlank(msg: Message)
    ensures ServerRoute(msg).Unicast? || ServerRoute(msg).FanOut? ==> TrimSpace(ServerRoute(msg).methodName) != ""
  {
    var params := DecodeParams(msg.params);
    if params.Some? && ParseHints(TrimSpace(msg.methodName), params.value).Accepted? {
      CleanSplit(TrimSpace(msg.methodName), params.value);
    }
  }

  /** The targets are the peers that were connected when the server took the
      request up, the caller apart. */
  ghost predicate GoesToEveryPeer(s: State, conn: nat, msg: Message, targets: seq<nat>, f: TakenUp) {
    && TookUp(WorldOf(s), conn, msg, f)
    && forall k :: k in targets <==> k in f.peers && k != conn
  }

  /** The targets are the ones the request asks for. */
  ghost predicate TargetsOK(s: State, conn: nat, msg: Message, targets: seq<nat>, m: string, params: Params) {
    && targets != [] && TrimSpace(m) != ""
    && (forall j :: 0 <= j < |targets| ==> targets[j] < |s.owners|)
    && match ServerRoute(msg)
       case Unicast(target, _, n, p) => n == m && p == params && |targets| == 1 && NameOf(targets[0]) == target
       case FanOut(_, n, p) =>
         && n == m && p == params
         && (forall j :: 0 <= j < |targets| ==> targets[j] != conn)
         && (forall i, j :: 0 <= i < j < |targets| ==> targets[i] != targets[j])
         && (exists f :: GoesToEveryPeer(s, conn, msg, targets, f))
       case _ => false
  }

  lemma RelayCallsOK(cfg: Config, s: State, targets: seq<nat>, m: string, params: Params)
    requires Inv(cfg, s) && TrimSpace(m) != "" && forall j :: 0 <= j < |targets| ==> targets[j] < |s.owners|
    ensures Inv(cfg, s.(calls := s.calls + RelayCalls(targets, m, params)))
  {
    var cs := RelayCalls(targets, m, params);
    forall i | 0 <= i < |cs| ensures CallOK(cfg, s, cs[i]) && cs[i].number == 0 {
      NewCallOK(cfg, s, FromServer, targets[i], m, params, Looking);
    }
    AddCalls(cfg, s, cs);
  }

  lemma HandlesOK(s: State, conn: nat, msg: Message, targets: seq<nat>, m: string, params: Params)
    requires TargetsOK(s, conn, msg, targets, m, params)
    ensures RelayOK(s.(calls := s.calls + RelayCalls(targets, m, params)), conn, msg, Handles(|s.calls|, |targets|))
  {
    var s1 := s.(calls := s.calls + RelayCalls(targets, m, params));
    var hs := Handles(|s.calls|, |targets|);
    forall j | 0 <= j < |hs|
      ensures hs[j] < |s1.calls| && s1.calls[hs[j]] == NewCall(FromServer, targets[j], m, params, Looking)
    {
      assert s1.calls[|s.calls| + j] == RelayCalls(targets, m, params)[j];
    }
    TargetsStayOK(s, s1, conn, msg, targets, m, params);
    NewRelayOK(s1, conn, msg, targets, m, params, hs);
  }

  lemma TargetsStayOK(s: State, s': State, conn: nat, msg: Message, targets: seq<nat>, m: string, params: Params)
    requires TargetsOK(s, conn, msg, targets, m, params) && WorldOf(s') == WorldOf(s)
    ensures TargetsOK(s', conn, msg, targets, m, params)
  {
    if ServerRoute(msg).FanOut? {
      var f :| GoesToEveryPeer(s, conn, msg, targets, f);
      assert GoesToEveryPeer(s', conn, msg, targets, f);
    }
  }

  lemma NewRelayOK(s: State, conn: nat, msg: Message, targets: seq<nat>, m: string, params: Params, hs: seq<nat>)
    requires TargetsOK(s, conn, msg, targets, m, params) && |hs| == |targets|
    requires forall j :: 0 <= j < |hs| ==>
      hs[j] < |s.calls| && s.calls[hs[j]] == NewCall(FromServer, targets[j], m, params, Looking)
    ensures RelayOK(s, conn, msg, hs)
  {
    if ServerRoute(msg).FanOut? {
      var f :| GoesToEveryPeer(s, conn, msg, targets, f);
      TargetsAsked(s, conn, msg, targets, m, params, hs, f);
    }
  }

  lemma TargetsAsked(s: State, conn: nat, msg: Message, targets: seq<nat>, m: string, params: Params, hs: seq<nat>, f: TakenUp)
    requires GoesToEveryPeer(s, conn, msg, targets, f) && |hs| == |targets|
    requires forall j :: 0 <= j < |hs| ==>
      hs[j] < |s.calls| && s.calls[hs[j]] == NewCall(FromServer, targets[j], m, params, Looking)
    ensures AsksEveryPeer(s, conn, msg, hs, f)
  {
    forall k | k in f.peers && k != conn ensures exists j :: 0 <= j < |hs| && s.calls[hs[j]].conn == k {
      assert k in targets;
      var j :| 0 <= j < |targets| && targets[j] == k;
      assert s.calls[hs[j]].conn == k;
    }
  }

  lemma RelayingKeeps(cfg: Config, s: State, t: nat, targets: seq<nat>, m: string, params: Params)
    requires Inv(cfg, s) && t < |s.tasks| && s.tasks[t].AtServer?
    requires TargetsOK(s, s.tasks[t].conn, s.tasks[t].msg, targets, m, params)
    ensures Inv(cfg, Relaying(s, t, targets, m, params))
  {
    var task := s.tasks[t];
    assert task in s.tasks;
    RelayCallsOK(cfg, s, targets, m, params);
    var s1 := s.(calls := s.calls + RelayCalls(targets, m, params));
    assert TaskOK(cfg, s1, task);
    HandlesOK(s, task.conn, task.msg, targets, m, params);
    ReplaceTask(cfg, s1, t, Awaiting(task.conn, task.msg, Handles(|s.calls|, |targets|)));
  }

  lemma NotedKeeps(cfg: Config, s: State, t: nat)
    requires Inv(cfg, s) && t < |s.tasks| && s.tasks[t].AtServer?
    ensures Inv(cfg, Noted(s, t)) && TookUp(WorldOf(Noted(s, t)), s.tasks[t].conn, s.tasks[t].msg, NoteOf(s, t))
  {
    Kept(cfg, s, Noted(s, t));
    CallsKept(cfg, s, Noted(s, t));
  }

  /** The note about the request is the one just made. */
  ghost predicate JustNoted(s: State, t: nat) {
    && t < |s.tasks| && s.tasks[t].AtServer?
    && TookUp(WorldOf(s), s.tasks[t].conn, s.tasks[t].msg, NoteOf(s, t))
  }

  lemma ServingUnicastKeeps(cfg: Config, s: State, t: nat, interrupted: bool)
    requires Inv(cfg, s) && JustNoted(s, t) && ServerRoute(s.tasks[t].msg).Unicast?
    ensures Inv(cfg, Serving(cfg, s, t, interrupted))
  {
    var route, f := ServerRoute(s.tasks[t].msg), NoteOf(s, t);
    var k := PeerNamed(|s.owners|, s.open, route.target);
    RoutedMethodNonBlank(s.tasks[t].msg);
    if k.None? {
      forall j | j in f.peers ensures NameOf(j) != route.target {
        if NameOf(j) == route.target {
          PeerIsFound(|s.owners|, s.open, j);
        }
      }
      assert Nameless(f.peers, route.target);
      SpeakingKeeps(cfg, s, t, Some(PeerNotFound(route.target)));
    } else {
      RelayingKeeps(cfg, s, t, [k.value], route.methodName, route.params);
    }
  }

  lemma ServingFanOutKeeps(cfg: Config, s: State, t: nat, interrupted: bool)
    requires Inv(cfg, s) && JustNoted(s, t) && ServerRoute(s.tasks[t].msg).FanOut?
    ensures Inv(cfg, Serving(cfg, s, t, interrupted))
  {
    var route, f, conn := ServerRoute(s.tasks[t].msg), NoteOf(s, t), s.tasks[t].conn;
    var targets := Members(|s.owners|, s.open - {conn});
    RoutedMethodNonBlank(s.tasks[t].msg);
    MembersAreAll(|s.owners|, s.open);
    MembersAreAll(|s.owners|, s.open - {conn});
    if targets == [] {
      forall k | k in f.peers ensures k == conn {
        assert k == conn || k in targets;
      }
      assert NobodyElse(f.peers, conn);
      SpeakingKeeps(cfg, s, t, Some(NoPeers));
    } else {
      assert GoesToEveryPeer(s, conn, s.tasks[t].msg, targets, f);
      RelayingKeeps(cfg, s, t, targets, route.methodName, route.params);
    }
  }

  lemma ServingKeeps(cfg: Config, s: State, t: nat, interrupted: bool)
    requires Inv(cfg, s) && JustNoted(s, t)
    ensures Inv(cfg, Serving(cfg, s, t, interrupted))
  {
    match ServerRoute(s.tasks[t].msg) {
      case Answer(v) => SpeakingKeeps(cfg, s, t, Some(v));
      case ListPeers => SpeakingKeeps(cfg, s, t, Some(PeersVerdict(Names(Members(|s.owners|, s.open)))));
      case Local(m, params) => SpeakingKeeps(cfg, s, t, LocalVerdict(cfg.server, m, params, interrupted));
      case Unicast(_, _, _, _) => ServingUnicastKeeps(cfg, s, t, interrupted);
      case FanOut(_, _, _) => ServingFanOutKeeps(cfg, s, t, interrupted);
    }
  }

  lemma RunServerKeeps(cfg: Config, s: State, t: nat, interrupted: bool)
    requires Inv(cfg, s) && Enabled(s, RunServer(t, interrupted))
    ensures Inv(cfg, Apply(cfg, s, RunServer(t, interrupted)))
  {
    NotedKeeps(cfg, s, t);
    ServingKeeps(cfg, Noted(s, t), t, interrupted);
  }

  // ----- the end of a relay -----

  lemma NotesAreNotifications(s: State, caller: nat, m: string, hs: seq<nat>)
    requires AllGone(s, hs) && m != ""
    ensures forall n :: n in NotesFor(s, caller, m, hs) ==> IsNotification(n.msg)
  {
  }

  lemma UnicastVerdictOK(cfg: Config, s: State, conn: nat, msg: Message, hs: seq<nat>)
    requires CallsOK(cfg, s) && RelayOK(s, conn, msg, hs) && ServerRoute(msg).Unicast? && AllGone(s, hs)
    ensures VerdictOK(cfg, WorldOf(s), conn, msg, RelayVerdict(s.calls[hs[0]].stage.result))
  {
    var c := s.calls[hs[0]];
    assert CallOK(cfg, s, c);
    var route := ServerRoute(msg);
    assert UnicastOK(cfg, s.owners, c.conn, route.target, route.methodName, route.params, c.stage.result);
  }

  /** A rearrangement of distinct handles is distinct. */
  lemma PermutationDistinct(order: seq<nat>, hs: seq<nat>)
    requires multiset(order) == multiset(hs)
    requires forall i, j :: 0 <= i < j < |hs| ==> hs[i] != hs[j]
    ensures forall j :: 0 <= j < |order| ==> order[j] in hs
    ensures forall i, j :: 0 <= i < j < |order| ==> order[i] != order[j]
  {
    forall j | 0 <= j < |order| ensures order[j] in hs {
      assert order[j] in multiset(order);
    }
    forall i, j | 0 <= i < j < |order| && order[i] == order[j] ensures false {
      AppearsTwice(order, i, j);
      AppearsOnce(hs, order[i]);
    }
  }

  lemma AppearsTwice(q: seq<nat>, i: nat, j: nat)
    requires i < j < |q| && q[i] == q[j]
    ensures multiset(q)[q[i]] >= 2
  {
    assert q == q[..j] + [q[j]] + q[j + 1..];
    assert q[..j][i] == q[i];
    assert q[i] in multiset(q[..j]);
  }

  lemma {:induction false} AppearsOnce(q: seq<nat>, x: nat)
    requires forall i, j :: 0 <= i < j < |q| ==> q[i] != q[j]
    ensures multiset(q)[x] <= 1
  {
    if q != [] {
      var n := |q| - 1;
      assert q == q[..n] + [q[n]];
      AppearsOnce(q[..n], x);
      if q[n] == x {
        assert x !in q[..n];
      }
    }
  }

  function RelayedBy(s: State, hs: seq<nat>): seq<Relayed>
    requires AllGone(s, hs)
  {
    seq(|hs|, j requires 0 <= j < |hs| => Relayed(s.calls[hs[j]].conn, s.calls[hs[j]].stage.result))
  }

  /** The answers of distinct peers that were all asked for the same thing. */
  lemma RelayedAnswersOK(cfg: Config, s: State, conn: nat, msg: Message, hs: seq<nat>, order: seq<nat>)
    requires CallsOK(cfg, s) && RelayOK(s, conn, msg, hs) && ServerRoute(msg).FanOut?
    requires AllGone(s, hs) && AllGone(s, order) && multiset(order) == multiset(hs)
    ensures RelayedOK(cfg, s.owners, conn, ServerRoute(msg).methodName, ServerRoute(msg).params, RelayedBy(s, order))
  {
    var route := ServerRoute(msg);
    var es := RelayedBy(s, order);
    assert forall i, j :: 0 <= i < j < |hs| ==> s.calls[hs[i]].conn != s.calls[hs[j]].conn;
    PermutationDistinct(order, hs);
    forall j | 0 <= j < |es|
      ensures es[j].conn < |s.owners| && es[j].conn != conn
      ensures RelayReturns(cfg, s.owners, es[j].conn, route.methodName, route.params, es[j].answer)
    {
      var a :| 0 <= a < |hs| && hs[a] == order[j];
      assert CallOK(cfg, s, s.calls[hs[a]]);
    }
    forall i, j | 0 <= i < j < |es| ensures es[i].conn != es[j].conn {
      var a :| 0 <= a < |hs| && hs[a] == order[i];
      var b :| 0 <= b < |hs| && hs[b] == order[j];
      assert a != b;
    }
  }

  /** Every peer asked is among the answers, in whichever order they came. */
  lemma EveryPeerAnswers(s: State, conn: nat, msg: Message, hs: seq<nat>, order: seq<nat>, f: TakenUp)
    requires AllGone(s, hs) && AllGone(s, order) && multiset(order) == multiset(hs)
    requires AsksEveryPeer(s, conn, msg, hs, f)
    ensures var es := RelayedBy(s, order);
      && (forall j :: 0 <= j < |es| ==> es[j].conn in f.peers)
      && (forall k :: k in f.peers && k != conn ==> exists j :: 0 <= j < |es| && es[j].conn == k)
  {
    var es := RelayedBy(s, order);
    forall j | 0 <= j < |es| ensures es[j].conn in f.peers {
      assert order[j] in multiset(order);
      assert order[j] in multiset(hs);
      var a :| 0 <= a < |hs| && hs[a] == order[j];
    }
    forall k | k in f.peers && k != conn ensures exists j :: 0 <= j < |es| && es[j].conn == k {
      var a :| 0 <= a < |hs| && s.calls[hs[a]].conn == k;
      assert hs[a] in multiset(hs);
      assert hs[a] in multiset(order);
      var j :| 0 <= j < |order| && order[j] == hs[a];
      assert es[j].conn == k;
    }
  }

  lemma FanOutVerdictOK(cfg: Config, s: State, conn: nat, msg: Message, hs: seq<nat>, order: seq<nat>)
    requires CallsOK(cfg, s) && RelayOK(s, conn, msg, hs) && ServerRoute(msg).FanOut?
    requires AllGone(s, hs) && AllGone(s, order) && multiset(order) == multiset(hs)
    ensures VerdictOK(cfg, WorldOf(s), conn, msg, FanOutVerdict(EntriesFor(s, order)))
  {
    var route := ServerRoute(msg);
    var es := RelayedBy(s, order);
    var f :| AsksEveryPeer(s, conn, msg, hs, f);
    RelayedAnswersOK(cfg, s, conn, msg, hs, order);
    EveryPeerAnswers(s, conn, msg, hs, order, f);
    assert FanOutOK(cfg, WorldOf(s), conn, msg, route.methodName, route.params, f, es);
    assert ToEntries(es) == EntriesFor(s, order);
  }

  lemma ReportingOK(cfg: Config, s: State, conn: nat, msg: Message, notes: seq<Note>, v: Verdict)
    requires conn < |s.owners| && (Honest(s, conn) ==> AskedByClient(s, conn, msg))
    requires VerdictOK(cfg, WorldOf(s), conn, msg, v) && forall n :: n in notes ==> IsNotification(n.msg)
    ensures TaskOK(cfg, s, Reporting(conn, notes, Answered(msg, Some(v))))
  {
    AnsweredIsReply(cfg, s, conn, msg, Some(v));
  }

  lemma CollectKeeps(cfg: Config, s: State, t: nat, order: seq<nat>)
    requires Inv(cfg, s) && Enabled(s, Collect(t, order))
    ensures Inv(cfg, Apply(cfg, s, Collect(t, order)))
  {
    var task := s.tasks[t];
    assert task in s.tasks;
    assert TaskOK(cfg, s, task);
    RoutedMethodNonBlank(task.msg);
    var route := ServerRoute(task.msg);
    NonBlank(route.methodName);
    if route.Unicast? {
      var r := s.calls[task.hs[0]].stage.result;
      var notes := if route.mode.BroadcastResponse? && r.Ok? then NotesFor(s, task.conn, route.methodName, task.hs[..1]) else [];
      NotesAreNotifications(s, task.conn, route.methodName, task.hs[..1]);
      UnicastVerdictOK(cfg, s, task.conn, task.msg, task.hs);
      ReportingOK(cfg, s, task.conn, task.msg, notes, RelayVerdict(r));
      ReplaceTask(cfg, s, t, Reporting(task.conn, notes, Answered(task.msg, Some(RelayVerdict(r)))));
    } else {
      var v := FanOutVerdict(EntriesFor(s, order));
      var notes := if route.mode.FullBroadcast? then NotesFor(s, task.conn, route.methodName, order) else [];
      NotesAreNotifications(s, task.conn, route.methodName, order);
      FanOutVerdictOK(cfg, s, task.conn, task.msg, task.hs, order);
      ReportingOK(cfg, s, task.conn, task.msg, notes, v);
      ReplaceTask(cfg, s, t, Reporting(task.conn, notes, Answered(task.msg, Some(v))));
    }
  }

  lemma EmitKeeps(cfg: Config, s: State, t: nat)
    requires Inv(cfg, s) && Enabled(s, Emit(t))
    ensures Inv(cfg, Apply(cfg, s, Emit(t)))
  {
    var task := s.tasks[t];
    var note := task.notes[0];
    assert task in s.tasks;
    assert TaskOK(cfg, s, task);
    assert note in task.notes;
    var task' := task.(notes := task.notes[1..]);
    assert TaskOK(cfg, s, task');
    ReplaceTask(cfg, s, t, task');
    var s1 := s.(tasks := s.tasks[t := task']);
    SetWire(cfg, s1, s.wire + Broadcast(Members(|s.owners|, s.open - note.exclude), note.msg));
  }

  lemma FinishKeeps(cfg: Config, s: State, t: nat)
    requires Inv(cfg, s) && Enabled(s, Finish(t))
    ensures Inv(cfg, Apply(cfg, s, Finish(t)))
  {
    var task := s.tasks[t];
    assert task in s.tasks;
    assert TaskOK(cfg, s, task);
    EndTask(cfg, s, t, if task.reply.Some? then [Frame(false, task.conn, Envelope(task.reply.value))] else []);
  }

  // ----- the environment -----

  lemma AcceptKeeps(cfg: Config, s: State, owner: Option<nat>)
    requires Inv(cfg, s)
    ensures Inv(cfg, Apply(cfg, s, Accept(owner)))
  {
    var s' := Apply(cfg, s, Accept(owner));
    Kept(cfg, s, s');
    CallsKept(cfg, s, s');
  }

  lemma FailTableKeeps(cfg: Config, s: State, table: TableId)
    requires Inv(cfg, s)
    ensures Inv(cfg, Apply(cfg, s, FailTable(table)))
  {
    var s' := Apply(cfg, s, FailTable(table));
    SetPending(cfg, s, s'.pending);
    var s1 := s.(pending := s'.pending);
    var hs := PendingIn(s, table, |s.calls|);
    forall p | p in FailurePosts(hs) ensures PostOK(cfg, s1, p) {
      assert CallOK(cfg, s1, s1.calls[p.call]);
      assert Unpack(UnavailableMessage) == ClosedResult;
    }
    SetPosts(cfg, s1, s'.posts);
  }

  lemma NewCallOK(cfg: Config, s: State, o: Origin, conn: nat, m: string, params: Params, st: Stage)
    requires conn < |s.owners| && TrimSpace(m) != "" && (st.Looking? || st.Taken?)
    requires o.FromClient? ==> s.owners[conn] == Some(o.client)
    ensures CallOK(cfg, s, NewCall(o, conn, m, params, st))
  {
  }

  lemma EnvironmentKeeps(cfg: Config, s: State, l: Label)
    requires Inv(cfg, s) && Enabled(s, l) && !Internal(l)
    ensures Inv(cfg, Apply(cfg, s, l))
  {
    match l {
      case Accept(owner) => AcceptKeeps(cfg, s, owner);
      case HangUp(conn) =>
        var s' := s.(open := s.open - {conn});
        Kept(cfg, s, s');
        CallsKept(cfg, s, s');
      case FailTable(table) => FailTableKeeps(cfg, s, table);
      case Lose(i) => SetWire(cfg, s, RemoveAt(s.wire, i));
      case Inject(conn, packet) => SetWire(cfg, s, s.wire + [Frame(true, conn, packet)]);
      case CallFromClient(conn, m, params) =>
        NewCallOK(cfg, s, FromClient(s.owners[conn].value), conn, m, params, Taken);
        AddCalls(cfg, s, [NewCall(FromClient(s.owners[conn].value), conn, m, params, Taken)]);
      case CallFromServer(conn, m, params) =>
        NewCallOK(cfg, s, FromServer, conn, m, params, Looking);
        AddCalls(cfg, s, [NewCall(FromServer, conn, m, params, Looking)]);
    }
  }

  // ----- every run -----

  lemma TaskStepKeeps(cfg: Config, s: State, l: Label)
    requires Inv(cfg, s) && Enabled(s, l)
    requires l.RunClient? || l.RunServer? || l.Collect? || l.Emit? || l.Finish?
    ensures Inv(cfg, Apply(cfg, s, l))
  {
    match l {
      case RunClient(t) => RunClientKeeps(cfg, s, t);
      case RunServer(t, interrupted) => RunServerKeeps(cfg, s, t, interrupted);
      case Collect(t, order) => CollectKeeps(cfg, s, t, order);
      case Emit(t) => EmitKeeps(cfg, s, t);
      case Finish(t) => FinishKeeps(cfg, s, t);
    }
  }

  lemma StepKeepsInv(cfg: Config, s: State, l: Label)
    requires Inv(cfg, s) && Enabled(s, l)
    ensures Inv(cfg, Apply(cfg, s, l))
  {
    if !Internal(l) {
      EnvironmentKeeps(cfg, s, l);
    } else if l.Deliver? {
      DeliverKeeps(cfg, s, l.i);
    } else if l.Fill? {
      FillKeeps(cfg, s, l.j);
    } else if l.RunClient? || l.RunServer? || l.Collect? || l.Emit? || l.Finish? {
      TaskStepKeeps(cfg, s, l);
    } else {
      InvokeStepKeeps(cfg, s, l);
    }
  }

  lemma {:induction false} RunKeepsInv(cfg: Config, s: State, ls: seq<Label>)
    requires Inv(cfg, s) && Runs(cfg, s, ls)
    ensures Inv(cfg, Exec(cfg, s, ls))
    decreases |ls|
  {
    if ls != [] {
      StepKeepsInv(cfg, s, ls[0]);
      RunKeepsInv(cfg, Apply(cfg, s, ls[0]), ls[1..]);
    }
  }

  lemma ReachableInv(cfg: Config, s: State)
    requires Reachable(cfg, s)
    ensures Inv(cfg, s)
  {
    var ls :| Runs(cfg, Start, ls) && Exec(cfg, Start, ls) == s;
    RunKeepsInv(cfg, Start, ls);
  }
}
