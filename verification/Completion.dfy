/** The other half of the refinement: from every state of the network, however
    busy, a new call can run to its end, and then returns what the handler makes
    of it on the spot; for the server's own handlers, and for those of a client
    that the call names. Each lemma takes one step and leaves the rest to the
    one before it. */
module Completion {
  import opened Wrappers
  import opened Text
  import opened RpcTypes
  import opened RouteHints
  import opened Dispatch
  import opened Network
  import opened Sums
  import opened Provenance
  import opened NetworkSteps
  import opened NetworkTheorems

  /** Some run of n steps ends with call h having r. */
  ghost predicate CanGet(cfg: Config, s: State, h: nat, r: InvokeResult, n: nat) {
    exists ls :: Gets(cfg, s, ls, h, r) && |ls| == n
  }

  predicate Gets(cfg: Config, s: State, ls: seq<Label>, h: nat, r: InvokeResult) {
    Runs(cfg, s, ls) && Has(Exec(cfg, s, ls), h, r)
  }

  lemma Before(cfg: Config, s: State, l: Label, s': State, h: nat, r: InvokeResult, n: nat)
    requires Enabled(s, l) && Apply(cfg, s, l) == s' && CanGet(cfg, s', h, r, n)
    ensures CanGet(cfg, s, h, r, n + 1)
  {
    var rest :| Gets(cfg, s', rest, h, r) && |rest| == n;
    var ls := [l] + rest;
    assert ls[1..] == rest;
    assert Gets(cfg, s, ls, h, r);
  }

  // ----- a call that waits for its answer -----

  /** Call h waits with an empty channel, which the table still has. */
  predicate Pends(s: State, h: nat) {
    && AtStage(s, h, Waiting) && s.calls[h].slot.None?
    && EntryKey(s.calls[h]) in s.pending && s.pending[EntryKey(s.calls[h])] == h
    && s.calls[h].conn < |s.owners|
  }

  /** The same for a call of a client over a connection of its own. */
  predicate Awaits(s: State, h: nat) {
    Pends(s, h) && s.calls[h].origin.FromClient? && s.owners[s.calls[h].conn] == Some(s.calls[h].origin.client)
  }

  function Last<T>(q: seq<T>): T
    requires q != []
  {
    q[|q| - 1]
  }

  lemma ReceiveLast(cfg: Config, s: State, h: nat, msg: Message)
    requires AtStage(s, h, Waiting) && s.calls[h].slot == Some(msg)
    ensures CanGet(cfg, s, h, Unpack(msg), 1)
  {
    var s' := SetStage(s, h, Finished(Unpack(msg)));
    assert Gets(cfg, s', [], h, Unpack(msg));
    Before(cfg, s, Receive(h), s', h, Unpack(msg), 0);
  }

  /** The last message on its way is in its call's channel. */
  function FilledLast(s: State, h: nat, msg: Message): State
    requires h < |s.calls| && s.posts != []
  {
    s.(posts := s.posts[..|s.posts| - 1], calls := s.calls[h := s.calls[h].(slot := Some(msg))])
  }

  lemma FillIsOneStep(cfg: Config, s: State, h: nat, msg: Message)
    requires h < |s.calls| && s.calls[h].slot.None? && s.posts != [] && Last(s.posts) == Post(h, msg)
    ensures Enabled(s, Fill(|s.posts| - 1)) && Apply(cfg, s, Fill(|s.posts| - 1)) == FilledLast(s, h, msg)
  {
    assert RemoveAt(s.posts, |s.posts| - 1) == s.posts[..|s.posts| - 1];
  }

  lemma FillLast(cfg: Config, s: State, h: nat, msg: Message)
    requires AtStage(s, h, Waiting) && s.calls[h].slot.None?
    requires s.posts != [] && Last(s.posts) == Post(h, msg)
    ensures CanGet(cfg, s, h, Unpack(msg), 2)
  {
    var s' := FilledLast(s, h, msg);
    FillIsOneStep(cfg, s, h, msg);
    ReceiveLast(cfg, s', h, msg);
    Before(cfg, s, Fill(|s.posts| - 1), s', h, Unpack(msg), 1);
  }

  /** The answer to a pending call is on its way to the call's channel. */
  function Posted(s: State, h: nat, msg: Message): State
    requires s.wire != []
  {
    s.(wire := s.wire[..|s.wire| - 1], posts := s.posts + [Post(h, msg)])
  }

  /** The answer to a pending call arrives. */
  lemma DeliverAnswer(cfg: Config, s: State, h: nat, v: Verdict)
    requires Pends(s, h) && s.wire != [] && (s.calls[h].origin.FromClient? ==> Awaits(s, h))
    requires Last(s.wire) == Frame(s.calls[h].origin.FromServer?, s.calls[h].conn, Envelope(Respond(Key(s.calls[h]), v)))
    ensures Enabled(s, Deliver(|s.wire| - 1))
    ensures Apply(cfg, s, Deliver(|s.wire| - 1)) == Posted(s, h, Respond(Key(s.calls[h]), v))
  {
    KeyIsIdKey(s.calls[h]);
    assert RemoveAt(s.wire, |s.wire| - 1) == s.wire[..|s.wire| - 1];
  }

  lemma AnswerArrives(cfg: Config, s: State, h: nat, v: Verdict)
    requires Pends(s, h) && s.wire != [] && (s.calls[h].origin.FromClient? ==> Awaits(s, h))
    requires Last(s.wire) == Frame(s.calls[h].origin.FromServer?, s.calls[h].conn, Envelope(Respond(Key(s.calls[h]), v)))
    ensures CanGet(cfg, s, h, Unpack(Respond(Key(s.calls[h]), v)), 3)
  {
    var msg := Respond(Key(s.calls[h]), v);
    DeliverAnswer(cfg, s, h, v);
    var s' := Posted(s, h, msg);
    FillLast(cfg, s', h, msg);
    Before(cfg, s, Deliver(|s.wire| - 1), s', h, Unpack(msg), 2);
  }

  // ----- the server reports -----

  /** Task t has `notes` and then the answer to call h to write. */
  predicate HasAnswer(s: State, t: nat, h: nat, notes: seq<Note>, v: Verdict)
    requires h < |s.calls|
  {
    t < |s.tasks| && s.tasks[t] == Reporting(s.calls[h].conn, notes, Some(Respond(Key(s.calls[h]), v)))
  }

  lemma FinishReports(cfg: Config, s: State, t: nat, h: nat, v: Verdict)
    requires Awaits(s, h) && HasAnswer(s, t, h, [], v)
    ensures CanGet(cfg, s, h, Unpack(Respond(Key(s.calls[h]), v)), 4)
  {
    var s' := Apply(cfg, s, Finish(t));
    AnswerArrives(cfg, s', h, v);
    Before(cfg, s, Finish(t), s', h, Unpack(Respond(Key(s.calls[h]), v)), 3);
  }

  lemma {:induction false} ReportArrives(cfg: Config, s: State, t: nat, h: nat, notes: seq<Note>, v: Verdict)
    requires Awaits(s, h) && HasAnswer(s, t, h, notes, v)
    ensures CanGet(cfg, s, h, Unpack(Respond(Key(s.calls[h]), v)), |notes| + 4)
    decreases |notes|
  {
    if notes == [] {
      FinishReports(cfg, s, t, h, v);
    } else {
      var s' := Apply(cfg, s, Emit(t));
      ReportArrives(cfg, s', t, h, notes[1..], v);
      Before(cfg, s, Emit(t), s', h, Unpack(Respond(Key(s.calls[h]), v)), |notes| + 3);
    }
  }

  // ----- the server takes the request up -----

  /** Task t is the request of call h, fresh from the wire. */
  predicate Arrived(s: State, t: nat, h: nat)
    requires h < |s.calls|
  {
    t < |s.tasks| && s.tasks[t] == AtServer(s.calls[h].conn, RequestOf(s.calls[h]))
  }

  lemma ServedLocally(cfg: Config, s: State, t: nat, h: nat, m: string, params: Params, v: Verdict)
    requires Awaits(s, h) && Arrived(s, t, h) && ServerRoute(RequestOf(s.calls[h])) == Local(m, params)
    requires LocalVerdict(cfg.server, m, params, false) == Some(v)
    ensures CanGet(cfg, s, h, Unpack(Respond(Key(s.calls[h]), v)), 5)
  {
    var s' := Apply(cfg, s, RunServer(t, false));
    KeyIsIdKey(s.calls[h]);
    assert s' == Speaking(Noted(s, t), t, Some(v));
    ReportArrives(cfg, s', t, h, [], v);
    Before(cfg, s, RunServer(t, false), s', h, Unpack(Respond(Key(s.calls[h]), v)), 4);
  }

  /** The server has read the request that was written last. */
  function Up(s: State, h: nat): State
    requires h < |s.calls| && s.wire != []
  {
    s.(wire := s.wire[..|s.wire| - 1], tasks := s.tasks + [AtServer(s.calls[h].conn, RequestOf(s.calls[h]))])
  }

  lemma RequestArrives(cfg: Config, s: State, h: nat)
    requires Awaits(s, h) && s.calls[h].methodName != "" && s.wire != []
    requires Last(s.wire) == Frame(true, s.calls[h].conn, Envelope(RequestOf(s.calls[h])))
    ensures Enabled(s, Deliver(|s.wire| - 1)) && Apply(cfg, s, Deliver(|s.wire| - 1)) == Up(s, h)
  {
    assert RemoveAt(s.wire, |s.wire| - 1) == s.wire[..|s.wire| - 1];
  }

  // ----- the call goes out -----

  /** The state in which a call with a connection has written its request. */
  function Sent(s: State, h: nat): State
    requires h < |s.calls|
  {
    var n := Counter(s, s.calls[h].origin) + 1;
    var c := s.calls[h].(number := n, stage := Waiting);
    s.(calls := s.calls[h := c], counters := s.counters[c.origin := n], pending := s.pending[EntryKey(c) := h],
       wire := s.wire + [Frame(c.origin.FromClient?, c.conn, Envelope(RequestOf(c)))])
  }

  function Numbering(s: State, h: nat): State
    requires h < |s.calls|
  {
    var n := Counter(s, s.calls[h].origin) + 1;
    s.(counters := s.counters[s.calls[h].origin := n], calls := s.calls[h := s.calls[h].(number := n, stage := Numbered)])
  }

  function Registering(s: State, h: nat): State
    requires h < |s.calls|
  {
    var c := s.calls[h].(stage := Registered);
    s.(calls := s.calls[h := c], pending := s.pending[EntryKey(c) := h])
  }

  function Writing(s: State, h: nat): State
    requires h < |s.calls|
  {
    var c := s.calls[h].(stage := Waiting);
    s.(calls := s.calls[h := c], wire := s.wire + [Frame(c.origin.FromClient?, c.conn, Envelope(RequestOf(c)))])
  }

  lemma CanNumber(cfg: Config, s: State, h: nat, g: nat, r: InvokeResult, n: nat)
    requires AtStage(s, h, Taken) && CanGet(cfg, Numbering(s, h), g, r, n)
    ensures CanGet(cfg, s, g, r, n + 1)
  {
    NumberingIsOneStep(cfg, s, h);
    Before(cfg, s, DrawNumber(h), Numbering(s, h), g, r, n);
  }

  lemma NumberingIsOneStep(cfg: Config, s: State, h: nat)
    requires AtStage(s, h, Taken)
    ensures Apply(cfg, s, DrawNumber(h)) == Numbering(s, h)
  {
  }

  lemma CanRegister(cfg: Config, s: State, h: nat, g: nat, r: InvokeResult, n: nat)
    requires AtStage(s, h, Numbered) && CanGet(cfg, Registering(s, h), g, r, n)
    ensures CanGet(cfg, s, g, r, n + 1)
  {
    Before(cfg, s, Register(h), Registering(s, h), g, r, n);
  }

  lemma CanWrite(cfg: Config, s: State, h: nat, g: nat, r: InvokeResult, n: nat)
    requires AtStage(s, h, Registered) && CanGet(cfg, Writing(s, h), g, r, n)
    ensures CanGet(cfg, s, g, r, n + 1)
  {
    Before(cfg, s, Send(h), Writing(s, h), g, r, n);
  }

  lemma ThreeStepsToSent(s: State, h: nat)
    requires h < |s.calls|
    ensures Writing(Registering(Numbering(s, h), h), h) == Sent(s, h)
  {
    assert Writing(Registering(Numbering(s, h), h), h).calls == Sent(s, h).calls;
  }

  /** From having a connection to having written takes three steps. */
  lemma CanSend(cfg: Config, s: State, h: nat, g: nat, r: InvokeResult, n: nat)
    requires AtStage(s, h, Taken) && CanGet(cfg, Sent(s, h), g, r, n)
    ensures CanGet(cfg, s, g, r, n + 3)
  {
    ThreeStepsToSent(s, h);
    CanWrite(cfg, Registering(Numbering(s, h), h), h, g, r, n);
    CanRegister(cfg, Numbering(s, h), h, g, r, n + 1);
    CanNumber(cfg, s, h, g, r, n + 2);
  }

  /** The state in which a client's new call has a connection. */
  function Made(s: State, conn: nat, m: string, params: Params): State
    requires conn < |s.owners| && s.owners[conn].Some?
  {
    s.(calls := s.calls + [NewCall(FromClient(s.owners[conn].value), conn, m, params, Taken)])
  }

  /** The state in which the server has read a new call's request. */
  function Asked(s: State, conn: nat, m: string, params: Params): State
    requires conn < |s.owners| && s.owners[conn].Some?
  {
    Up(Sent(Made(s, conn, m, params), |s.calls|), |s.calls|)
  }

  lemma AskedArrived(s: State, conn: nat, m: string, params: Params)
    requires conn < |s.owners| && s.owners[conn].Some? && TrimSpace(m) != ""
    ensures var h, up := |s.calls|, Asked(s, conn, m, params);
      && Awaits(up, h) && Arrived(up, |s.tasks|, h) && up.owners == s.owners && up.open == s.open
      && up.calls[h].methodName == m && up.calls[h].params == params && up.calls[h].conn == conn
  {
  }

  /** A new call can be made, and its request read by the server. */
  lemma CanAsk(cfg: Config, s: State, conn: nat, m: string, params: Params, r: InvokeResult, n: nat)
    requires conn < |s.owners| && s.owners[conn].Some? && TrimSpace(m) != ""
    requires CanGet(cfg, Asked(s, conn, m, params), |s.calls|, r, n)
    ensures CanGet(cfg, s, |s.calls|, r, n + 5)
  {
    var h := |s.calls|;
    var made := Made(s, conn, m, params);
    NonBlank(m);
    CanRead(cfg, made, h, r, n);
    CanSend(cfg, made, h, h, r, n + 1);
    Before(cfg, s, CallFromClient(conn, m, params), made, h, r, n + 4);
  }

  lemma CanRead(cfg: Config, s: State, h: nat, r: InvokeResult, n: nat)
    requires AtStage(s, h, Taken) && s.calls[h].slot.None? && s.calls[h].origin.FromClient? && s.calls[h].methodName != ""
    requires s.calls[h].conn < |s.owners| && s.owners[s.calls[h].conn] == Some(s.calls[h].origin.client)
    requires CanGet(cfg, Up(Sent(s, h), h), h, r, n)
    ensures CanGet(cfg, Sent(s, h), h, r, n + 1)
  {
    var sent := Sent(s, h);
    RequestArrives(cfg, sent, h);
    Before(cfg, sent, Deliver(|sent.wire| - 1), Up(sent, h), h, r, n);
  }

  /** From any state, a call that a client makes for one of the server's handlers
      can return in ten steps, and then with that handler's own result or error,
      whichever it is, unless the handler ends cancelled. */
  lemma RemoteCallCanComplete(cfg: Config, s: State, conn: nat, m: string, params: Params, v: Verdict)
    requires conn < |s.owners| && s.owners[conn].Some?
    requires TrimSpace(m) != "" && ForServer(m, params) && Dispatchable(m, params)
    requires LocalVerdict(cfg.server, TrimSpace(m), WithoutHints(params), false) == Some(v)
    ensures CanGet(cfg, s, |s.calls|, UnpackVerdict(v), 10)
  {
    var h, up := |s.calls|, Asked(s, conn, m, params);
    AskedArrived(s, conn, m, params);
    ServerRouteOf(Key(up.calls[h]), m, params);
    ServedLocally(cfg, up, |s.tasks|, h, TrimSpace(m), WithoutHints(params), v);
    assert Unpack(Respond(Key(up.calls[h]), v)) == UnpackVerdict(v);
    CanAsk(cfg, s, conn, m, params, UnpackVerdict(v), 5);
  }

  // ----- the second hop -----

  /** Call h waits, and task t holds its request until the relayed call g has
      returned. */
  predicate Relays(s: State, t: nat, h: nat, g: nat, k: nat, name: string) {
    && Awaits(s, h) && g < |s.calls| && g != h && s.calls[g].origin.FromServer? && s.calls[g].conn == k
    && k < |s.owners|
    && t < |s.tasks| && s.tasks[t] == Awaiting(s.calls[h].conn, RequestOf(s.calls[h]), [g])
    && ServerRoute(RequestOf(s.calls[h])).Unicast? && ServerRoute(RequestOf(s.calls[h])).target == name
  }

  /** At most one notification precedes the answer. */
  ghost predicate CanGetSoon(cfg: Config, s: State, h: nat, r: InvokeResult, n: nat) {
    CanGet(cfg, s, h, r, n) || CanGet(cfg, s, h, r, n + 1)
  }

  lemma BeforeSoon(cfg: Config, s: State, l: Label, s': State, h: nat, r: InvokeResult, n: nat)
    requires Enabled(s, l) && Apply(cfg, s, l) == s' && CanGetSoon(cfg, s', h, r, n)
    ensures CanGetSoon(cfg, s, h, r, n + 1)
  {
    if CanGet(cfg, s', h, r, n) {
      Before(cfg, s, l, s', h, r, n);
    } else {
      Before(cfg, s, l, s', h, r, n + 1);
    }
  }

  lemma CollectedAnswer(cfg: Config, s: State, t: nat, h: nat, g: nat, k: nat, name: string, q: InvokeResult)
    requires Relays(s, t, h, g, k, name) && s.calls[g].stage == Gone(q)
    ensures Enabled(s, Collect(t, [g]))
    ensures var s' := Apply(cfg, s, Collect(t, [g]));
      && Awaits(s', h) && s'.calls == s.calls
      && t < |s'.tasks| && s'.tasks[t].Reporting? && |s'.tasks[t].notes| <= 1
      && HasAnswer(s', t, h, s'.tasks[t].notes, RelayVerdict(q))
  {
    KeyIsIdKey(s.calls[h]);
  }

  lemma RelayedAnswerArrives(cfg: Config, s: State, t: nat, h: nat, g: nat, k: nat, name: string, q: InvokeResult)
    requires Relays(s, t, h, g, k, name) && s.calls[g].stage == Gone(q)
    ensures CanGetSoon(cfg, s, h, UnpackVerdict(RelayVerdict(q)), 5)
  {
    CollectedAnswer(cfg, s, t, h, g, k, name, q);
    var s' := Apply(cfg, s, Collect(t, [g]));
    ReportArrives(cfg, s', t, h, s'.tasks[t].notes, RelayVerdict(q));
    assert Unpack(Respond(Key(s.calls[h]), RelayVerdict(q))) == UnpackVerdict(RelayVerdict(q));
    BeforeSoon(cfg, s, Collect(t, [g]), s', h, UnpackVerdict(RelayVerdict(q)), 4);
  }

  lemma RelayedCallReturns(cfg: Config, s: State, t: nat, h: nat, g: nat, k: nat, name: string, msg: Message)
    requires Relays(s, t, h, g, k, name) && s.calls[g].stage == Waiting && s.calls[g].slot == Some(msg)
    ensures CanGetSoon(cfg, s, h, UnpackVerdict(RelayVerdict(Unpack(msg))), 7)
  {
    var q := Unpack(msg);
    var s1 := SetStage(s, g, Finished(q));
    var s2 := SetStage(s1, g, Gone(q)).(pending := s1.pending - {EntryKey(s1.calls[g])});
    RelayedAnswerArrives(cfg, s2, t, h, g, k, name, q);
    BeforeSoon(cfg, s1, Remove(g), s2, h, UnpackVerdict(RelayVerdict(q)), 5);
    BeforeSoon(cfg, s, Receive(g), s1, h, UnpackVerdict(RelayVerdict(q)), 6);
  }

  lemma RelayedAnswerIsFilled(cfg: Config, s: State, t: nat, h: nat, g: nat, k: nat, name: string, msg: Message)
    requires Relays(s, t, h, g, k, name) && s.calls[g].stage == Waiting && s.calls[g].slot.None?
    requires s.posts != [] && Last(s.posts) == Post(g, msg)
    ensures CanGetSoon(cfg, s, h, UnpackVerdict(RelayVerdict(Unpack(msg))), 8)
  {
    var s' := FilledLast(s, g, msg);
    FillIsOneStep(cfg, s, g, msg);
    RelayedCallReturns(cfg, s', t, h, g, k, name, msg);
    BeforeSoon(cfg, s, Fill(|s.posts| - 1), s', h, UnpackVerdict(RelayVerdict(Unpack(msg))), 7);
  }

  lemma PeerAnswerArrives(cfg: Config, s: State, t: nat, h: nat, g: nat, k: nat, name: string, v: Verdict)
    requires Relays(s, t, h, g, k, name) && Pends(s, g)
    requires s.wire != [] && Last(s.wire) == Frame(true, k, Envelope(Respond(Key(s.calls[g]), v)))
    ensures CanGetSoon(cfg, s, h, UnpackVerdict(v), 9)
  {
    var msg := Respond(Key(s.calls[g]), v);
    DeliverAnswer(cfg, s, g, v);
    var s' := Posted(s, g, msg);
    RelayedAnswerIsFilled(cfg, s', t, h, g, k, name, msg);
    TwoHopsAreOne(v);
    assert Unpack(msg) == UnpackVerdict(v);
    BeforeSoon(cfg, s, Deliver(|s.wire| - 1), s', h, UnpackVerdict(v), 8);
  }

  lemma PeerReplies(cfg: Config, s: State, g: nat, k: nat, client: nat)
    requires g < |s.calls| && s.calls[g].origin.FromServer? && TrimSpace(s.calls[g].methodName) != ""
    requires k < |s.owners| && s.owners[k] == Some(client)
    requires s.tasks != [] && Last(s.tasks) == AtClient(k, RequestOf(s.calls[g]))
    ensures Enabled(s, RunClient(|s.tasks| - 1))
    ensures Apply(cfg, s, RunClient(|s.tasks| - 1)) ==
      s.(tasks := s.tasks[..|s.tasks| - 1],
         wire := s.wire + [Frame(true, k, Envelope(Respond(Key(s.calls[g]),
                             Serves(cfg.client(client), s.calls[g].methodName, s.calls[g].params))))])
  {
    var c := s.calls[g];
    MintedRequestIsServed(cfg.client(client), c.number, c.methodName, c.params);
    assert RemoveAt(s.tasks, |s.tasks| - 1) == s.tasks[..|s.tasks| - 1];
  }

  /** The peer's own handler answers. */
  lemma PeerServes(cfg: Config, s: State, t: nat, h: nat, g: nat, k: nat, name: string, client: nat)
    requires Relays(s, t, h, g, k, name) && Pends(s, g) && s.owners[k] == Some(client)
    requires TrimSpace(s.calls[g].methodName) != ""
    requires t < |s.tasks| - 1 && Last(s.tasks) == AtClient(k, RequestOf(s.calls[g]))
    ensures CanGetSoon(cfg, s, h, UnpackVerdict(Serves(cfg.client(client), s.calls[g].methodName, s.calls[g].params)), 10)
  {
    var v := Serves(cfg.client(client), s.calls[g].methodName, s.calls[g].params);
    PeerReplies(cfg, s, g, k, client);
    var s' := Apply(cfg, s, RunClient(|s.tasks| - 1));
    PeerAnswerArrives(cfg, s', t, h, g, k, name, v);
    BeforeSoon(cfg, s, RunClient(|s.tasks| - 1), s', h, UnpackVerdict(v), 9);
  }

  /** A client has read the request that was written last. */
  function Read(s: State, k: nat, msg: Message): State
    requires s.wire != []
  {
    s.(wire := s.wire[..|s.wire| - 1], tasks := s.tasks + [AtClient(k, msg)])
  }

  lemma PeerReads(cfg: Config, s: State, k: nat, msg: Message)
    requires k < |s.owners| && s.owners[k].Some? && msg.methodName != ""
    requires s.wire != [] && Last(s.wire) == Frame(false, k, Envelope(msg))
    ensures Enabled(s, Deliver(|s.wire| - 1)) && Apply(cfg, s, Deliver(|s.wire| - 1)) == Read(s, k, msg)
  {
    assert RemoveAt(s.wire, |s.wire| - 1) == s.wire[..|s.wire| - 1];
  }

  lemma PeerRequestArrives(cfg: Config, s: State, t: nat, h: nat, g: nat, k: nat, name: string, client: nat)
    requires Relays(s, t, h, g, k, name) && Pends(s, g) && s.owners[k] == Some(client)
    requires TrimSpace(s.calls[g].methodName) != ""
    requires s.wire != [] && Last(s.wire) == Frame(false, k, Envelope(RequestOf(s.calls[g])))
    ensures CanGetSoon(cfg, s, h, UnpackVerdict(Serves(cfg.client(client), s.calls[g].methodName, s.calls[g].params)), 11)
  {
    var v := Serves(cfg.client(client), s.calls[g].methodName, s.calls[g].params);
    NonBlank(s.calls[g].methodName);
    PeerReads(cfg, s, k, RequestOf(s.calls[g]));
    var s' := Read(s, k, RequestOf(s.calls[g]));
    PeerServes(cfg, s', t, h, g, k, name, client);
    BeforeSoon(cfg, s, Deliver(|s.wire| - 1), s', h, UnpackVerdict(v), 10);
  }

  lemma CanSendSoon(cfg: Config, s: State, h: nat, g: nat, r: InvokeResult, n: nat)
    requires AtStage(s, g, Taken) && CanGetSoon(cfg, Sent(s, g), h, r, n)
    ensures CanGetSoon(cfg, s, h, r, n + 3)
  {
    if CanGet(cfg, Sent(s, g), h, r, n) {
      CanSend(cfg, s, g, h, r, n);
    } else {
      CanSend(cfg, s, g, h, r, n + 1);
    }
  }

  lemma RelayedCallIsMade(cfg: Config, s: State, t: nat, h: nat, g: nat, k: nat, name: string, client: nat)
    requires Relays(s, t, h, g, k, name) && s.owners[k] == Some(client) && k in s.open
    requires s.calls[g].stage == Looking && s.calls[g].slot.None? && TrimSpace(s.calls[g].methodName) != ""
    ensures CanGetSoon(cfg, s, h, UnpackVerdict(Serves(cfg.client(client), s.calls[g].methodName, s.calls[g].params)), 15)
  {
    var r := UnpackVerdict(Serves(cfg.client(client), s.calls[g].methodName, s.calls[g].params));
    var s1 := SetStage(s, g, Taken);
    SentKeepsRelay(s1, t, h, g, k, name);
    PeerRequestArrives(cfg, Sent(s1, g), t, h, g, k, name, client);
    CanSendSoon(cfg, s1, h, g, r, 11);
    BeforeSoon(cfg, s, LookUp(g), s1, h, r, 14);
  }

  lemma SentKeepsRelay(s: State, t: nat, h: nat, g: nat, k: nat, name: string)
    requires Relays(s, t, h, g, k, name) && s.calls[g].stage == Taken && s.calls[g].slot.None?
    ensures Relays(Sent(s, g), t, h, g, k, name) && Pends(Sent(s, g), g)
  {
  }

  lemma CanAskSoon(cfg: Config, s: State, conn: nat, m: string, params: Params, r: InvokeResult, n: nat)
    requires conn < |s.owners| && s.owners[conn].Some? && TrimSpace(m) != ""
    requires CanGetSoon(cfg, Asked(s, conn, m, params), |s.calls|, r, n)
    ensures CanGetSoon(cfg, s, |s.calls|, r, n + 5)
  {
    if CanGet(cfg, Asked(s, conn, m, params), |s.calls|, r, n) {
      CanAsk(cfg, s, conn, m, params, r, n);
    } else {
      CanAsk(cfg, s, conn, m, params, r, n + 1);
    }
  }

  lemma ServedByPeer(cfg: Config, s: State, t: nat, h: nat, k: nat, client: nat)
    requires Awaits(s, h) && Arrived(s, t, h) && k < |s.owners| && k in s.open && s.owners[k] == Some(client)
    requires ServerRoute(RequestOf(s.calls[h])).Unicast? && ServerRoute(RequestOf(s.calls[h])).target == NameOf(k)
    requires TrimSpace(ServerRoute(RequestOf(s.calls[h])).methodName) != ""
    ensures var route := ServerRoute(RequestOf(s.calls[h]));
      CanGetSoon(cfg, s, h, UnpackVerdict(Serves(cfg.client(client), route.methodName, route.params)), 16)
  {
    var route := ServerRoute(RequestOf(s.calls[h]));
    OpenPeerIsCalled(cfg, s, t, false, k);
    ServingOpenPeer(cfg, Noted(s, t), t, false, k);
    var s' := Apply(cfg, s, RunServer(t, false));
    RelayedCallIsMade(cfg, s', t, h, |s.calls|, k, NameOf(k), client);
    BeforeSoon(cfg, s, RunServer(t, false), s', h, UnpackVerdict(Serves(cfg.client(client), route.methodName, route.params)), 15);
  }

  /** From any state, a call that names an open connection of a client, the
      caller's own included, can return in 21 steps, or in 22 when the others are
      told, and then with what that client's own handler makes of it. */
  lemma RelayedCallCanComplete(cfg: Config, s: State, conn: nat, m: string, params: Params, k: nat, client: nat)
    requires conn < |s.owners| && s.owners[conn].Some?
    requires k < |s.owners| && k in s.open && s.owners[k] == Some(client)
    requires TrimSpace(m) != "" && ForPeer(m, params, NameOf(k)) && Dispatchable(m, params)
    ensures CanGetSoon(cfg, s, |s.calls|,
                       UnpackVerdict(Serves(cfg.client(client), TrimSpace(m), WithoutHints(params))), 21)
  {
    var h, up := |s.calls|, Asked(s, conn, m, params);
    AskedArrived(s, conn, m, params);
    PeerRouteOf(Key(up.calls[h]), m, params, NameOf(k));
    assert TrimSpace(TrimSpace(m)) != "";
    ServedByPeer(cfg, up, |s.tasks|, h, k, client);
    CanAskSoon(cfg, s, conn, m, params, UnpackVerdict(Serves(cfg.client(client), TrimSpace(m), WithoutHints(params))), 16);
  }

  /** A client that connects now can be called by name at once. */
  lemma NewPeerCanBeCalled(cfg: Config, s: State, conn: nat, m: string, params: Params, client: nat)
    requires conn < |s.owners| && s.owners[conn].Some?
    requires TrimSpace(m) != "" && ForPeer(m, params, NameOf(|s.owners|)) && Dispatchable(m, params)
    ensures CanGetSoon(cfg, s, |s.calls|,
                       UnpackVerdict(Serves(cfg.client(client), TrimSpace(m), WithoutHints(params))), 22)
  {
    var s' := Apply(cfg, s, Accept(Some(client)));
    RelayedCallCanComplete(cfg, s', conn, m, params, |s.owners|, client);
    BeforeSoon(cfg, s, Accept(Some(client)), s', |s.calls|,
               UnpackVerdict(Serves(cfg.client(client), TrimSpace(m), WithoutHints(params))), 21);
  }

  // ----- calls of the server itself -----

  lemma ClientServesCall(cfg: Config, s: State, g: nat, client: nat)
    requires Pends(s, g) && s.calls[g].origin.FromServer? && TrimSpace(s.calls[g].methodName) != ""
    requires s.owners[s.calls[g].conn] == Some(client)
    requires s.tasks != [] && Last(s.tasks) == AtClient(s.calls[g].conn, RequestOf(s.calls[g]))
    ensures CanGet(cfg, s, g, UnpackVerdict(Serves(cfg.client(client), s.calls[g].methodName, s.calls[g].params)), 4)
  {
    var v := Serves(cfg.client(client), s.calls[g].methodName, s.calls[g].params);
    PeerReplies(cfg, s, g, s.calls[g].conn, client);
    var s' := Apply(cfg, s, RunClient(|s.tasks| - 1));
    AnswerArrives(cfg, s', g, v);
    assert Unpack(Respond(Key(s.calls[g]), v)) == UnpackVerdict(v);
    Before(cfg, s, RunClient(|s.tasks| - 1), s', g, UnpackVerdict(v), 3);
  }

  lemma ServerRequestArrives(cfg: Config, s: State, g: nat, client: nat)
    requires Pends(s, g) && s.calls[g].origin.FromServer? && TrimSpace(s.calls[g].methodName) != ""
    requires s.owners[s.calls[g].conn] == Some(client)
    requires s.wire != [] && Last(s.wire) == Frame(false, s.calls[g].conn, Envelope(RequestOf(s.calls[g])))
    ensures CanGet(cfg, s, g, UnpackVerdict(Serves(cfg.client(client), s.calls[g].methodName, s.calls[g].params)), 5)
  {
    NonBlank(s.calls[g].methodName);
    PeerReads(cfg, s, s.calls[g].conn, RequestOf(s.calls[g]));
    var s' := Read(s, s.calls[g].conn, RequestOf(s.calls[g]));
    ClientServesCall(cfg, s', g, client);
    Before(cfg, s, Deliver(|s.wire| - 1), s', g,
           UnpackVerdict(Serves(cfg.client(client), s.calls[g].methodName, s.calls[g].params)), 4);
  }

  lemma ServerCallGoesOut(cfg: Config, s: State, g: nat, client: nat)
    requires AtStage(s, g, Taken) && s.calls[g].slot.None? && s.calls[g].origin.FromServer?
    requires TrimSpace(s.calls[g].methodName) != ""
    requires s.calls[g].conn < |s.owners| && s.owners[s.calls[g].conn] == Some(client)
    ensures CanGet(cfg, s, g, UnpackVerdict(Serves(cfg.client(client), s.calls[g].methodName, s.calls[g].params)), 8)
  {
    ServerRequestArrives(cfg, Sent(s, g), g, client);
    CanSend(cfg, s, g, g, UnpackVerdict(Serves(cfg.client(client), s.calls[g].methodName, s.calls[g].params)), 5);
  }

  /** From any state, a call of the server's own to an open connection of a
      client can return in ten steps, and then with what that client's handler
      makes of it. */
  lemma ServerCallCanComplete(cfg: Config, s: State, k: nat, m: string, params: Params, client: nat)
    requires k < |s.owners| && k in s.open && s.owners[k] == Some(client) && TrimSpace(m) != ""
    ensures CanGet(cfg, s, |s.calls|, UnpackVerdict(Serves(cfg.client(client), m, params)), 10)
  {
    var g, r := |s.calls|, UnpackVerdict(Serves(cfg.client(client), m, params));
    var s1 := s.(calls := s.calls + [NewCall(FromServer, k, m, params, Looking)]);
    var s2 := SetStage(s1, g, Taken);
    ServerCallGoesOut(cfg, s2, g, client);
    Before(cfg, s1, LookUp(g), s2, g, r, 8);
    Before(cfg, s, CallFromServer(k, m, params), s1, g, r, 9);
  }
}
