/** Clients, the hub and everything between them as one transition system
    (pkg/holonrpc/client.go, server.go, routing.go). Any number of clients and
    of foreign peers that follow no protocol; any number of outstanding calls;
    frames, request goroutines, deliveries and completions in any order.

    Connections open and close at any time here, which covers every behaviour
    of the life cycle in Lifecycle.dfy. */
module Network {
  import opened Wrappers
  import opened Text
  import opened RpcTypes
  import opened Dispatch
  import opened PeerNames
  import opened Sums

  /** Handler tables, fixed for the run. */
  datatype Config = Config(server: Table, client: nat -> Table)

  // ----- calls -----

  datatype Origin = FromClient(client: nat) | FromServer

  /** A client has one pending table, the server one for each peer. */
  datatype TableId = ClientTable(client: nat) | PeerTable(conn: nat)

  /** Where an Invoke stands. `Looking` is the server's lookup of the peer;
      `Taken` holds a connection; `Finished` has its result but not yet run its
      deferred delete; `Gone` has returned. */
  datatype Stage =
    | Looking
    | Taken
    | Numbered
    | Registered
    | Waiting
    | Finished(result: InvokeResult)
    | Gone(result: InvokeResult)

  /** `number` is 0 until the call has drawn one from its origin's counter;
      `slot` is the call's own one-slot channel. */
  datatype Call = Call(
    origin: Origin,
    conn: nat,
    methodName: string,
    params: Params,
    number: nat,
    stage: Stage,
    slot: Option<Message>)

  function Prefix(o: Origin): char {
    if o.FromServer? then 's' else 'c'
  }

  function Key(c: Call): string {
    MintedID(Prefix(c.origin), c.number)
  }

  function TableOf(c: Call): TableId {
    match c.origin
    case FromClient(client) => ClientTable(client)
    case FromServer => PeerTable(c.conn)
  }

  function RequestOf(c: Call): Message {
    RequestMessage(Key(c), c.methodName, c.params)
  }

  function NewCall(o: Origin, conn: nat, methodName: string, params: Params, stage: Stage): Call {
    Call(o, conn, methodName, params, 0, stage, None)
  }

  // ----- the state -----

  /** `up` frames travel from a client to the server. */
  datatype Frame = Frame(up: bool, conn: nat, packet: Packet)

  /** A message on its way into the channel of call `call`: the read loop has
      looked the channel up, or a swapped table is being failed. */
  datatype Post = Post(call: nat, msg: Message)

  /** A notification for every open connection outside `exclude`. */
  datatype Note = Note(exclude: set<nat>, msg: Message)

  /** A request goroutine. `Awaiting` waits for the relayed calls `hs`;
      `Reporting` has notifications and perhaps a reply left to write. */
  datatype Task =
    | AtClient(conn: nat, msg: Message)
    | AtServer(conn: nat, msg: Message)
    | Awaiting(conn: nat, msg: Message, hs: seq<nat>)
    | Reporting(conn: nat, notes: seq<Note>, reply: Option<Message>)

  /** A request that the server has taken up: where it came from, and the peers
      that were connected at that moment. */
  datatype TakenUp = TakenUp(conn: nat, msg: Message, peers: seq<nat>)

  /** `owners[k]` is the client behind connection k, None for a foreign peer;
      `open` are the connections in the server's peer table; `log` is a history
      variable. */
  datatype State = State(
    owners: seq<Option<nat>>,
    open: set<nat>,
    counters: map<Origin, nat>,
    calls: seq<Call>,
    pending: map<(TableId, string), nat>,
    wire: seq<Frame>,
    posts: seq<Post>,
    tasks: seq<Task>,
    log: seq<TakenUp>)

  const Start := State([], {}, map[], [], map[], [], [], [], [])

  function Counter(s: State, o: Origin): nat {
    if o in s.counters then s.counters[o] else 0
  }

  function NameOf(conn: nat): string {
    PeerName(conn + 1)
  }

  /** The connections below n that satisfy membership in `ks`, in ascending order. */
  function Members(n: nat, ks: set<nat>): (q: seq<nat>)
    ensures |q| <= n
    ensures forall j :: 0 <= j < |q| ==> q[j] < n && q[j] in ks
    ensures forall i, j :: 0 <= i < j < |q| ==> q[i] < q[j]
  {
    if n == 0 then [] else Members(n - 1, ks) + if n - 1 in ks then [n - 1] else []
  }

  /** The open connection with a given peer id. */
  function PeerNamed(n: nat, open: set<nat>, name: string): (k: Option<nat>)
    ensures k.Some? ==> k.value < n && k.value in open && NameOf(k.value) == name
  {
    if n == 0 then None
    else if n - 1 in open && NameOf(n - 1) == name then Some(n - 1)
    else PeerNamed(n - 1, open, name)
  }

  lemma {:induction false} MembersAreAll(n: nat, ks: set<nat>)
    ensures forall k: nat :: k in Members(n, ks) <==> k < n && k in ks
  {
    if n > 0 {
      MembersAreAll(n - 1, ks);
    }
  }

  /** A connection is found by its name whenever it is open. */
  lemma {:induction false} PeerIsFound(n: nat, open: set<nat>, k: nat)
    requires k < n && k in open
    ensures PeerNamed(n, open, NameOf(k)) == Some(k)
  {
    if n - 1 in open && NameOf(n - 1) == NameOf(k) {
      PeerNameInjective(n, k + 1);
    } else {
      PeerIsFound(n - 1, open, k);
    }
  }

  // ----- labels -----

  datatype Label =
    // Invoke, on either side
    | LookUp(h: nat)
    | DrawNumber(h: nat)
    | Register(h: nat)
    | Send(h: nat)
    | SendFails(h: nat, err: GoError)
    | Receive(h: nat)
    | Abandon(h: nat, err: GoError)
    | Remove(h: nat)
    // read loops and channels
    | Deliver(i: nat)
    | Fill(j: nat)
    // request goroutines
    | RunClient(t: nat)
    | RunServer(t: nat, interrupted: bool)
    | Collect(t: nat, order: seq<nat>)
    | Emit(t: nat)
    | Finish(t: nat)
    // the environment
    | Accept(owner: Option<nat>)
    | HangUp(conn: nat)
    | FailTable(table: TableId)
    | Lose(i: nat)
    | Inject(conn: nat, packet: Packet)
    | CallFromClient(conn: nat, methodName: string, params: Params)
    | CallFromServer(conn: nat, methodName: string, params: Params)

  predicate Internal(l: Label) {
    match l
    case Accept(_) => false
    case HangUp(_) => false
    case FailTable(_) => false
    case Lose(_) => false
    case Inject(_, _) => false
    case CallFromClient(_, _, _) => false
    case CallFromServer(_, _, _) => false
    case _ => true
  }

  predicate AtStage(s: State, h: nat, st: Stage) {
    h < |s.calls| && s.calls[h].stage == st
  }

  predicate AllGone(s: State, hs: seq<nat>) {
    forall j :: 0 <= j < |hs| ==> hs[j] < |s.calls| && s.calls[hs[j]].stage.Gone?
  }

  predicate Enabled(s: State, l: Label) {
    match l
    case LookUp(h) => AtStage(s, h, Looking)
    case DrawNumber(h) => AtStage(s, h, Taken)
    case Register(h) => AtStage(s, h, Numbered)
    case Send(h) => AtStage(s, h, Registered)
    case SendFails(h, err) => AtStage(s, h, Registered) && err.rpc.None?
    case Receive(h) => AtStage(s, h, Waiting) && s.calls[h].slot.Some?
    case Abandon(h, err) => AtStage(s, h, Waiting) && err.rpc.None?
    case Remove(h) => h < |s.calls| && s.calls[h].stage.Finished?
    case Deliver(i) =>
      i < |s.wire| && s.wire[i].conn < |s.owners| && (!s.wire[i].up ==> s.owners[s.wire[i].conn].Some?)
    case Fill(j) => j < |s.posts| && s.posts[j].call < |s.calls|
    case RunClient(t) =>
      && t < |s.tasks| && s.tasks[t].AtClient?
      && s.tasks[t].conn < |s.owners| && s.owners[s.tasks[t].conn].Some?
    case RunServer(t, _) => t < |s.tasks| && s.tasks[t].AtServer?
    case Collect(t, order) =>
      && t < |s.tasks| && s.tasks[t].Awaiting? && s.tasks[t].hs != []
      && AllGone(s, s.tasks[t].hs)
      && AllGone(s, order) && multiset(order) == multiset(s.tasks[t].hs)
    case Emit(t) => t < |s.tasks| && s.tasks[t].Reporting? && s.tasks[t].notes != []
    case Finish(t) => t < |s.tasks| && s.tasks[t].Reporting? && s.tasks[t].notes == []
    case Accept(_) => true
    case HangUp(conn) => true
    case FailTable(_) => true
    case Lose(i) => i < |s.wire|
    case Inject(conn, _) => conn < |s.owners| && s.owners[conn].None?
    case CallFromClient(conn, m, _) => conn < |s.owners| && s.owners[conn].Some? && TrimSpace(m) != ""
    case CallFromServer(conn, m, _) => conn < |s.owners| && TrimSpace(m) != ""
  }

  // ----- steps -----

  function SetStage(s: State, h: nat, st: Stage): State
    requires h < |s.calls|
  {
    s.(calls := s.calls[h := s.calls[h].(stage := st)])
  }

  function EntryKey(c: Call): (TableId, string) {
    (TableOf(c), Key(c))
  }

  const UnknownClient: GoError := GoError(false, false, None, "holon-rpc: unknown client")

  /** A response is matched against one pending table; without a match it is dropped. */
  function ResolveIn(s: State, table: TableId, msg: Message): State {
    var key := IdKey(msg.id);
    if key.Some? && (table, key.value) in s.pending
    then s.(posts := s.posts + [Post(s.pending[(table, key.value)], CheckVersion(msg))])
    else s
  }

  /** What a read loop does with the frame it has read. */
  function Receiving(s: State, f: Frame): State
    requires f.conn < |s.owners| && (!f.up ==> s.owners[f.conn].Some?)
  {
    match ReadLoopAction(f.packet)
    case Ignore => s
    case Reply(msg) => s.(wire := s.wire + [Frame(!f.up, f.conn, Envelope(msg))])
    case Serve(msg) =>
      s.(tasks := s.tasks + [if f.up then AtServer(f.conn, msg) else AtClient(f.conn, msg)])
    case Resolve(msg) =>
      ResolveIn(s, if f.up then PeerTable(f.conn) else ClientTable(s.owners[f.conn].value), msg)
  }

  function Answered(msg: Message, v: Option<Verdict>): Option<Message> {
    if HasID(msg.id) && v.Some? then Some(Respond(msg.id, v.value)) else None
  }

  function Names(ks: seq<nat>): seq<string> {
    seq(|ks|, i requires 0 <= i < |ks| => NameOf(ks[i]))
  }

  /** The server calls a relay starts, one for each target. */
  function RelayCalls(targets: seq<nat>, methodName: string, params: Params): seq<Call> {
    seq(|targets|, i requires 0 <= i < |targets| => NewCall(FromServer, targets[i], methodName, params, Looking))
  }

  function Handles(from: nat, n: nat): seq<nat> {
    seq(n, i => from + i)
  }

  function Relaying(s: State, t: nat, targets: seq<nat>, methodName: string, params: Params): State
    requires t < |s.tasks| && s.tasks[t].AtServer?
  {
    var task := s.tasks[t];
    s.(tasks := s.tasks[t := Awaiting(task.conn, task.msg, Handles(|s.calls|, |targets|))],
       calls := s.calls + RelayCalls(targets, methodName, params))
  }

  function NoteOf(s: State, t: nat): TakenUp
    requires t < |s.tasks| && s.tasks[t].AtServer?
  {
    TakenUp(s.tasks[t].conn, s.tasks[t].msg, Members(|s.owners|, s.open))
  }

  /** The server notes what it takes up. */
  function Noted(s: State, t: nat): State
    requires t < |s.tasks| && s.tasks[t].AtServer?
  {
    s.(log := s.log + [NoteOf(s, t)])
  }

  function Speaking(s: State, t: nat, v: Option<Verdict>): State
    requires t < |s.tasks| && s.tasks[t].AtServer?
  {
    var task := s.tasks[t];
    s.(tasks := s.tasks[t := Reporting(task.conn, [], Answered(task.msg, v))])
  }

  /** handlePeerRequest up to its reply or to the calls it relays. */
  function Serving(cfg: Config, s: State, t: nat, interrupted: bool): State
    requires t < |s.tasks| && s.tasks[t].AtServer?
  {
    match ServerRoute(s.tasks[t].msg)
    case Answer(v) => Speaking(s, t, Some(v))
    case ListPeers => Speaking(s, t, Some(PeersVerdict(Names(Members(|s.owners|, s.open)))))
    case Local(m, params) => Speaking(s, t, LocalVerdict(cfg.server, m, params, interrupted))
    case Unicast(target, _, m, params) =>
      var k := PeerNamed(|s.owners|, s.open, target);
      if k.None? then Speaking(s, t, Some(PeerNotFound(target)))
      else Relaying(s, t, [k.value], m, params)
    case FanOut(_, m, params) =>
      var targets := Members(|s.owners|, s.open - {s.tasks[t].conn});
      if targets == [] then Speaking(s, t, Some(NoPeers)) else Relaying(s, t, targets, m, params)
  }

  function EntryFor(c: Call): Entry
    requires c.stage.Gone?
  {
    Entry(NameOf(c.conn), c.stage.result)
  }

  function EntriesFor(s: State, hs: seq<nat>): seq<Entry>
    requires AllGone(s, hs)
  {
    seq(|hs|, j requires 0 <= j < |hs| => EntryFor(s.calls[hs[j]]))
  }

  /** Each entry is told to everyone but the caller and the peer it is about. */
  function NotesFor(s: State, caller: nat, methodName: string, hs: seq<nat>): seq<Note>
    requires AllGone(s, hs)
  {
    seq(|hs|, j requires 0 <= j < |hs| =>
      Note({caller, s.calls[hs[j]].conn}, Notification(methodName, EntryPayload(EntryFor(s.calls[hs[j]])))))
  }

  /** The end of a relay: every call has returned. */
  function Collecting(s: State, t: nat, order: seq<nat>): State
    requires t < |s.tasks| && s.tasks[t].Awaiting? && s.tasks[t].hs != []
    requires AllGone(s, s.tasks[t].hs) && AllGone(s, order)
  {
    var task := s.tasks[t];
    match ServerRoute(task.msg)
    case Unicast(_, mode, m, _) =>
      var r := s.calls[task.hs[0]].stage.result;
      s.(tasks := s.tasks[t := Reporting(task.conn,
        if mode.BroadcastResponse? && r.Ok? then NotesFor(s, task.conn, m, task.hs[..1]) else [],
        Answered(task.msg, Some(RelayVerdict(r))))])
    case FanOut(mode, m, _) =>
      s.(tasks := s.tasks[t := Reporting(task.conn,
        if mode.FullBroadcast? then NotesFor(s, task.conn, m, order) else [],
        Answered(task.msg, Some(FanOutVerdict(EntriesFor(s, order)))))])
    case _ => s.(tasks := s.tasks[t := Reporting(task.conn, [], None)])
  }

  function Broadcast(ks: seq<nat>, msg: Message): seq<Frame> {
    seq(|ks|, i requires 0 <= i < |ks| => Frame(false, ks[i], Envelope(msg)))
  }

  /** The calls below n that are registered in a table. */
  function PendingIn(s: State, table: TableId, n: nat): (hs: seq<nat>)
    requires n <= |s.calls|
    ensures forall j :: 0 <= j < |hs| ==> hs[j] < n
  {
    if n == 0 then []
    else PendingIn(s, table, n - 1) + if IsPendingIn(s, table, n - 1) then [n - 1] else []
  }

  predicate IsPendingIn(s: State, table: TableId, h: nat)
    requires h < |s.calls|
  {
    var e := EntryKey(s.calls[h]);
    e.0 == table && e in s.pending && s.pending[e] == h
  }

  function FailurePosts(hs: seq<nat>): seq<Post> {
    seq(|hs|, i requires 0 <= i < |hs| => Post(hs[i], UnavailableMessage))
  }

  function Apply(cfg: Config, s: State, l: Label): State
    requires Enabled(s, l)
  {
    match l
    case LookUp(h) => SetStage(s, h, if s.calls[h].conn in s.open then Taken else Gone(Err(UnknownClient)))
    case DrawNumber(h) =>
      var c := s.calls[h];
      var n := Counter(s, c.origin) + 1;
      s.(counters := s.counters[c.origin := n], calls := s.calls[h := c.(number := n, stage := Numbered)])
    case Register(h) =>
      SetStage(s, h, Registered).(pending := s.pending[EntryKey(s.calls[h]) := h])
    case Send(h) =>
      var c := s.calls[h];
      SetStage(s, h, Waiting).(wire := s.wire + [Frame(c.origin.FromClient?, c.conn, Envelope(RequestOf(c)))])
    case SendFails(h, err) => SetStage(s, h, Finished(Err(err)))
    case Receive(h) => SetStage(s, h, Finished(Unpack(s.calls[h].slot.value)))
    case Abandon(h, err) => SetStage(s, h, Finished(Err(err)))
    case Remove(h) =>
      SetStage(s, h, Gone(s.calls[h].stage.result)).(pending := s.pending - {EntryKey(s.calls[h])})
    case Deliver(i) => Receiving(s.(wire := RemoveAt(s.wire, i)), s.wire[i])
    case Fill(j) =>
      var p := s.posts[j];
      var c := s.calls[p.call];
      s.(posts := RemoveAt(s.posts, j),
         calls := s.calls[p.call := if c.slot.None? then c.(slot := Some(p.msg)) else c])
    case RunClient(t) =>
      var task := s.tasks[t];
      var reply := ClientReply(cfg.client(s.owners[task.conn].value), task.msg);
      s.(tasks := RemoveAt(s.tasks, t),
         wire := s.wire + if reply.Some? then [Frame(true, task.conn, Envelope(reply.value))] else [])
    case RunServer(t, interrupted) => Serving(cfg, Noted(s, t), t, interrupted)
    case Collect(t, order) => Collecting(s, t, order)
    case Emit(t) =>
      var task := s.tasks[t];
      var note := task.notes[0];
      s.(tasks := s.tasks[t := task.(notes := task.notes[1..])],
         wire := s.wire + Broadcast(Members(|s.owners|, s.open - note.exclude), note.msg))
    case Finish(t) =>
      var task := s.tasks[t];
      s.(tasks := RemoveAt(s.tasks, t),
         wire := s.wire + if task.reply.Some? then [Frame(false, task.conn, Envelope(task.reply.value))] else [])
    case Accept(owner) => s.(owners := s.owners + [owner], open := s.open + {|s.owners|})
    case HangUp(conn) => s.(open := s.open - {conn})
    case FailTable(table) =>
      s.(pending := map e | e in s.pending && e.0 != table :: s.pending[e],
         posts := s.posts + FailurePosts(PendingIn(s, table, |s.calls|)))
    case Lose(i) => s.(wire := RemoveAt(s.wire, i))
    case Inject(conn, packet) => s.(wire := s.wire + [Frame(true, conn, packet)])
    case CallFromClient(conn, m, params) =>
      s.(calls := s.calls + [NewCall(FromClient(s.owners[conn].value), conn, m, params, Taken)])
    case CallFromServer(conn, m, params) =>
      s.(calls := s.calls + [NewCall(FromServer, conn, m, params, Looking)])
  }

  predicate Runs(cfg: Config, s: State, ls: seq<Label>)
    decreases |ls|
  {
    ls == [] || (Enabled(s, ls[0]) && Runs(cfg, Apply(cfg, s, ls[0]), ls[1..]))
  }

  function Exec(cfg: Config, s: State, ls: seq<Label>): State
    requires Runs(cfg, s, ls)
    decreases |ls|
  {
    if ls == [] then s else Exec(cfg, Apply(cfg, s, ls[0]), ls[1..])
  }

  ghost predicate Reachable(cfg: Config, s: State) {
    exists ls :: Runs(cfg, Start, ls) && Exec(cfg, Start, ls) == s
  }
}
