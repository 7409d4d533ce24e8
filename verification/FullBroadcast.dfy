/** How many notifications a full-broadcast sends, and to whom
    (pkg/holonrpc/routing.go, routePeerRequest and broadcastNotificationMany). */
module FullBroadcast {
  import opened Wrappers
  import opened RpcTypes
  import opened Dispatch
  import opened WireFormat
  import opened Network
  import opened Sums

  /** The frames that a list of notes makes while the peer table is stable. */
  function NoteFrames(s: State, notes: seq<Note>): seq<Frame> {
    if notes == [] then []
    else Broadcast(Members(|s.owners|, s.open - notes[0].exclude), notes[0].msg) + NoteFrames(s, notes[1..])
  }

  function First(f: Frame, k: nat): seq<Packet> {
    if !f.up && f.conn == k then [f.packet] else []
  }

  /** What arrives on connection k, in order. */
  function Inbox(fs: seq<Frame>, k: nat): seq<Packet> {
    if fs == [] then [] else First(fs[0], k) + Inbox(fs[1..], k)
  }

  /** The notes that do not exclude k. */
  function NotesTo(notes: seq<Note>, k: nat): seq<Packet> {
    if notes == [] then []
    else (if k in notes[0].exclude then [] else [Envelope(notes[0].msg)]) + NotesTo(notes[1..], k)
  }

  lemma {:induction false} InboxConcat(a: seq<Frame>, b: seq<Frame>, k: nat)
    ensures Inbox(a + b, k) == Inbox(a, k) + Inbox(b, k)
  {
    if a == [] {
      assert a + b == b;
    } else {
      var whole := a + b;
      InboxConcat(a[1..], b, k);
      assert whole[1..] == a[1..] + b && whole[0] == a[0];
      var x, y, z := First(a[0], k), Inbox(a[1..], k), Inbox(b, k);
      assert Inbox(whole, k) == x + (y + z);
      assert x + (y + z) == (x + y) + z;
    }
  }

  lemma InboxOfOne(conn: nat, msg: Message, k: nat)
    ensures Inbox(Broadcast([conn], msg), k) == if k == conn then [Envelope(msg)] else []
  {
    assert Broadcast([conn], msg) == [Frame(false, conn, Envelope(msg))];
    assert Inbox([], k) == [];
  }

  lemma BroadcastConcat(a: seq<nat>, b: seq<nat>, msg: Message)
    ensures Broadcast(a + b, msg) == Broadcast(a, msg) + Broadcast(b, msg)
  {
  }

  lemma {:induction false} InboxOfBroadcast(n: nat, ks: set<nat>, msg: Message, k: nat)
    ensures Inbox(Broadcast(Members(n, ks), msg), k) == if k < n && k in ks then [Envelope(msg)] else []
  {
    if n > 0 {
      var front, last := Members(n - 1, ks), if n - 1 in ks then [n - 1] else [];
      InboxOfBroadcast(n - 1, ks, msg, k);
      BroadcastConcat(front, last, msg);
      InboxConcat(Broadcast(front, msg), Broadcast(last, msg), k);
      if last != [] {
        InboxOfOne(n - 1, msg, k);
      } else {
        assert Broadcast([], msg) == [];
      }
    } else {
      assert Broadcast([], msg) == [];
    }
  }

  lemma {:induction false} InboxOfNotes(s: State, notes: seq<Note>, k: nat)
    requires k < |s.owners| && k in s.open
    ensures Inbox(NoteFrames(s, notes), k) == NotesTo(notes, k)
  {
    if notes != [] {
      var ks := s.open - notes[0].exclude;
      InboxOfBroadcast(|s.owners|, ks, notes[0].msg, k);
      InboxConcat(Broadcast(Members(|s.owners|, ks), notes[0].msg), NoteFrames(s, notes[1..]), k);
      InboxOfNotes(s, notes[1..], k);
    }
  }

  lemma {:induction false} MembersCount(n: nat, ks: set<nat>)
    requires forall k :: k in ks ==> k < n
    ensures |Members(n, ks)| == |ks|
  {
    if n > 0 {
      MembersSame(n - 1, ks, ks - {n - 1});
      MembersCount(n - 1, ks - {n - 1});
    } else {
      assert ks == {};
    }
  }

  lemma {:induction false} MembersSame(n: nat, ks: set<nat>, ks': set<nat>)
    requires forall k :: k < n ==> (k in ks <==> k in ks')
    ensures Members(n, ks) == Members(n, ks')
  {
    if n > 0 {
      MembersSame(n - 1, ks, ks');
    }
  }

  lemma OneMoreTimes(n: nat, k: int)
    ensures n * k == k + (n - 1) * k
  {
  }

  /** If every note excludes exactly two open connections, the notes make
      |notes| (|open| - 2) frames. */
  lemma {:induction false} FramesCount(s: State, notes: seq<Note>)
    requires forall k :: k in s.open ==> k < |s.owners|
    requires forall j :: 0 <= j < |notes| ==> notes[j].exclude <= s.open && |notes[j].exclude| == 2
    ensures |NoteFrames(s, notes)| == |notes| * (|s.open| - 2)
  {
    if notes != [] {
      var each := |s.open| - 2;
      var ks := s.open - notes[0].exclude;
      assert |ks| == each;
      MembersCount(|s.owners|, ks);
      FramesCount(s, notes[1..]);
      assert |NoteFrames(s, notes)| == each + |NoteFrames(s, notes[1..])|;
      OneMoreTimes(|notes|, each);
    }
  }

  // ----- a task's notifications over any run -----

  /** Where task t is after a step; None once it has left. */
  function Moved(l: Label, t: nat): Option<nat> {
    match l
    case RunClient(u) => if u == t then None else Some(if u < t then t - 1 else t)
    case Finish(u) => if u == t then None else Some(if u < t then t - 1 else t)
    case _ => Some(t)
  }

  /** The step leaves the peer table alone. */
  predicate Stable(l: Label) {
    !l.Accept? && !l.HangUp?
  }

  predicate AllStable(ls: seq<Label>) {
    forall i :: 0 <= i < |ls| ==> Stable(ls[i])
  }

  /** What the step writes on behalf of task t's notifications. */
  function EmittedBy(cfg: Config, s: State, l: Label, t: nat): seq<Frame>
    requires Enabled(s, l)
  {
    if l == Emit(t) && |Apply(cfg, s, l).wire| >= |s.wire| then Apply(cfg, s, l).wire[|s.wire|..] else []
  }

  /** All notifications that a run writes for the task that is at t in s. */
  function Emitted(cfg: Config, s: State, ls: seq<Label>, t: nat): seq<Frame>
    requires Runs(cfg, s, ls)
    decreases |ls|
  {
    if ls == [] then []
    else
      EmittedBy(cfg, s, ls[0], t) +
      match Moved(ls[0], t)
      case None => []
      case Some(u) => Emitted(cfg, Apply(cfg, s, ls[0]), ls[1..], u)
  }

  /** The notes that the task still has at the end of the run. */
  function NotesLeft(cfg: Config, s: State, ls: seq<Label>, t: nat): seq<Note>
    requires Runs(cfg, s, ls)
    decreases |ls|
  {
    if ls == [] then (if t < |s.tasks| && s.tasks[t].Reporting? then s.tasks[t].notes else [])
    else
      match Moved(ls[0], t)
      case None => []
      case Some(u) => NotesLeft(cfg, Apply(cfg, s, ls[0]), ls[1..], u)
  }

  predicate Reports(s: State, t: nat, notes: seq<Note>) {
    t < |s.tasks| && s.tasks[t].Reporting? && s.tasks[t].notes == notes
  }

  /** A step of something else leaves the task's notes as they are. */
  lemma OtherStepKeepsNotes(cfg: Config, s: State, l: Label, t: nat, notes: seq<Note>)
    requires Enabled(s, l) && Reports(s, t, notes) && l != Emit(t) && Moved(l, t).Some?
    ensures Reports(Apply(cfg, s, l), Moved(l, t).value, notes)
  {
    if l.RunServer? {
      ServingKeepsNotes(cfg, Noted(s, l.t), l.t, l.interrupted, t, notes);
    } else if l.Collect? {
      CollectingKeepsNotes(s, l.t, l.order, t, notes);
    } else if l.Deliver? {
      ReceivingKeepsNotes(s.(wire := RemoveAt(s.wire, l.i)), s.wire[l.i], t, notes);
    }
  }

  lemma ServingKeepsNotes(cfg: Config, s: State, u: nat, interrupted: bool, t: nat, notes: seq<Note>)
    requires u < |s.tasks| && s.tasks[u].AtServer? && Reports(s, t, notes)
    ensures Reports(Serving(cfg, s, u, interrupted), t, notes)
  {
    match ServerRoute(s.tasks[u].msg) {
      case Answer(v) => assert Reports(Speaking(s, u, Some(v)), t, notes);
      case ListPeers => assert Reports(Speaking(s, u, Some(PeersVerdict(Names(Members(|s.owners|, s.open))))), t, notes);
      case Local(m, params) => assert Reports(Speaking(s, u, LocalVerdict(cfg.server, m, params, interrupted)), t, notes);
      case Unicast(_, _, _, _) =>
      case FanOut(_, _, _) =>
    }
  }

  lemma CollectingKeepsNotes(s: State, u: nat, order: seq<nat>, t: nat, notes: seq<Note>)
    requires Enabled(s, Collect(u, order)) && Reports(s, t, notes)
    ensures Reports(Collecting(s, u, order), t, notes)
  {
  }

  lemma ReceivingKeepsNotes(s: State, f: Frame, t: nat, notes: seq<Note>)
    requires f.conn < |s.owners| && (!f.up ==> s.owners[f.conn].Some?) && Reports(s, t, notes)
    ensures Reports(Receiving(s, f), t, notes)
  {
  }

  lemma StableStepKeepsPeers(cfg: Config, s: State, l: Label)
    requires Enabled(s, l) && Stable(l)
    ensures SamePeers(s, Apply(cfg, s, l))
  {
    if l.Collect? {
      CollectingKeepsPeers(s, l.t, l.order);
    } else if l.RunServer? {
      ServingKeepsPeers(cfg, Noted(s, l.t), l.t, l.interrupted);
    } else if l.Deliver? {
      ReceivingKeepsPeers(s.(wire := RemoveAt(s.wire, l.i)), s.wire[l.i]);
    }
  }

  predicate SamePeers(s: State, s': State) {
    s'.owners == s.owners && s'.open == s.open
  }

  lemma ServingKeepsPeers(cfg: Config, s: State, u: nat, interrupted: bool)
    requires u < |s.tasks| && s.tasks[u].AtServer?
    ensures SamePeers(s, Serving(cfg, s, u, interrupted))
  {
    match ServerRoute(s.tasks[u].msg) {
      case Answer(v) => assert SamePeers(s, Speaking(s, u, Some(v)));
      case ListPeers => assert SamePeers(s, Speaking(s, u, Some(PeersVerdict(Names(Members(|s.owners|, s.open))))));
      case Local(m, params) => assert SamePeers(s, Speaking(s, u, LocalVerdict(cfg.server, m, params, interrupted)));
      case Unicast(_, _, _, _) =>
      case FanOut(_, _, _) =>
    }
  }

  lemma ReceivingKeepsPeers(s: State, f: Frame)
    requires f.conn < |s.owners| && (!f.up ==> s.owners[f.conn].Some?)
    ensures SamePeers(s, Receiving(s, f))
  {
  }

  lemma CollectingKeepsPeers(s: State, t: nat, order: seq<nat>)
    requires Enabled(s, Collect(t, order))
    ensures SamePeers(s, Collecting(s, t, order))
  {
  }

  /** What a step writes for the task, and what is left to write, is what was
      left before. */
  lemma NotesSpent(cfg: Config, s: State, l: Label, t: nat, notes: seq<Note>)
    requires Enabled(s, l) && Stable(l) && Reports(s, t, notes)
    ensures Moved(l, t).None? ==> notes == []
    ensures Moved(l, t).Some? ==>
      var s', u := Apply(cfg, s, l), Moved(l, t).value;
      && u < |s'.tasks| && s'.tasks[u].Reporting?
      && EmittedBy(cfg, s, l, t) + NoteFrames(s, s'.tasks[u].notes) == NoteFrames(s, notes)
  {
    if l == Emit(t) {
      OneEmitted(cfg, s, t);
    } else if Moved(l, t).Some? {
      OtherStepKeepsNotes(cfg, s, l, t, notes);
    }
  }

  lemma OneEmitted(cfg: Config, s: State, t: nat)
    requires Enabled(s, Emit(t))
    ensures var s' := Apply(cfg, s, Emit(t));
      && t < |s'.tasks| && s'.tasks[t].Reporting?
      && EmittedBy(cfg, s, Emit(t), t) + NoteFrames(s, s'.tasks[t].notes) == NoteFrames(s, s.tasks[t].notes)
  {
    var notes := s.tasks[t].notes;
    var first := Broadcast(Members(|s.owners|, s.open - notes[0].exclude), notes[0].msg);
    assert (s.wire + first)[|s.wire|..] == first;
  }

  /** In any run with a stable peer table, whatever comes between them, the
      notifications written for a task and those it still has to write are, in
      order, the ones it started with. */
  lemma {:induction false} NotesConserved(cfg: Config, s: State, ls: seq<Label>, t: nat, notes: seq<Note>)
    requires Runs(cfg, s, ls) && AllStable(ls) && Reports(s, t, notes)
    ensures Emitted(cfg, s, ls, t) + NoteFrames(s, NotesLeft(cfg, s, ls, t)) == NoteFrames(s, notes)
    decreases |ls|
  {
    if ls != [] {
      NotesSpent(cfg, s, ls[0], t, notes);
      if Moved(ls[0], t).Some? {
        var s', u := Apply(cfg, s, ls[0]), Moved(ls[0], t).value;
        StableStepKeepsPeers(cfg, s, ls[0]);
        NotesConserved(cfg, s', ls[1..], u, s'.tasks[u].notes);
        SameNoteFrames(s, s', s'.tasks[u].notes);
        SameNoteFrames(s, s', NotesLeft(cfg, s', ls[1..], u));
        Associative(EmittedBy(cfg, s, ls[0], t), Emitted(cfg, s', ls[1..], u),
                    NoteFrames(s, NotesLeft(cfg, s', ls[1..], u)));
      }
    }
  }

  lemma Associative<T>(a: seq<T>, b: seq<T>, c: seq<T>)
    ensures (a + b) + c == a + (b + c)
  {
  }

  lemma {:induction false} SameNoteFrames(s: State, s1: State, notes: seq<Note>)
    requires s1.owners == s.owners && s1.open == s.open
    ensures NoteFrames(s1, notes) == NoteFrames(s, notes)
  {
    if notes != [] {
      SameNoteFrames(s, s1, notes[1..]);
    }
  }

  /** Notes about distinct peers: what connection k gets is one packet for each
      peer but itself. */
  lemma {:induction false} NotesToPeer(notes: seq<Note>, i: nat, k: nat)
    requires i < |notes| && forall j :: 0 <= j < |notes| ==> (k in notes[j].exclude <==> j == i)
    ensures NotesTo(notes, k) == seq(|notes| - 1, j requires 0 <= j < |notes| - 1 => Envelope(notes[if j < i then j else j + 1].msg))
  {
    if i > 0 {
      NotesToPeer(notes[1..], i - 1, k);
    } else {
      NotesToAll(notes[1..], k);
    }
  }

  lemma {:induction false} NotesToAll(notes: seq<Note>, k: nat)
    requires forall j :: 0 <= j < |notes| ==> k !in notes[j].exclude
    ensures NotesTo(notes, k) == seq(|notes|, j requires 0 <= j < |notes| => Envelope(notes[j].msg))
  {
    if notes != [] {
      NotesToAll(notes[1..], k);
    }
  }

  lemma {:induction false} NotesToNobody(notes: seq<Note>, k: nat)
    requires forall j :: 0 <= j < |notes| ==> k in notes[j].exclude
    ensures NotesTo(notes, k) == []
  {
    if notes != [] {
      NotesToNobody(notes[1..], k);
    }
  }

  /** The peers a relay waited for, in the order of their answers. */
  function ConnsOf(s: State, order: seq<nat>): seq<nat>
    requires AllGone(s, order)
  {
    seq(|order|, j requires 0 <= j < |order| => s.calls[order[j]].conn)
  }

  /** The open connections are the caller's and, each once, those of `peers`. */
  ghost predicate StablePeers(s: State, caller: nat, peers: seq<nat>) {
    && (forall k :: k in s.open <==> k in peers || k == caller)
    && caller !in peers && caller < |s.owners|
    && (forall i, j :: 0 <= i < j < |peers| ==> peers[i] != peers[j])
    && (forall j :: 0 <= j < |peers| ==> peers[j] < |s.owners|)
  }

  /** All notes but the i-th. */
  function AllBut(notes: seq<Note>, i: nat): seq<Packet>
    requires i < |notes|
  {
    seq(|notes| - 1, j requires 0 <= j < |notes| - 1 => Envelope(notes[if j < i then j else j + 1].msg))
  }

  lemma NotesReach(s: State, caller: nat, peers: seq<nat>, notes: seq<Note>)
    requires StablePeers(s, caller, peers) && |notes| == |peers|
    requires forall j :: 0 <= j < |notes| ==> notes[j].exclude == {caller, peers[j]}
    ensures |NoteFrames(s, notes)| == |notes| * (|notes| - 1)
    ensures Inbox(NoteFrames(s, notes), caller) == []
    ensures forall i :: 0 <= i < |notes| ==> Inbox(NoteFrames(s, notes), peers[i]) == AllBut(notes, i)
  {
    OpenCount(s.open, caller, peers);
    forall j | 0 <= j < |notes| ensures notes[j].exclude <= s.open && |notes[j].exclude| == 2 {
      assert peers[j] in s.open && peers[j] != caller;
    }
    FramesCount(s, notes);
    InboxOfNotes(s, notes, caller);
    NotesToNobody(notes, caller);
    forall i | 0 <= i < |notes| ensures Inbox(NoteFrames(s, notes), peers[i]) == AllBut(notes, i) {
      assert peers[i] in s.open;
      InboxOfNotes(s, notes, peers[i]);
      NotesToPeer(notes, i, peers[i]);
    }
  }

  /** Task t has the notes about the calls in `order` to write. */
  predicate Announces(s: State, t: nat, methodName: string, order: seq<nat>) {
    AllGone(s, order) && t < |s.tasks| && Reports(s, t, NotesFor(s, s.tasks[t].conn, methodName, order))
  }

  /** What the end of a relay leaves to announce: all its answers under
      full-broadcast, a successful answer under broadcast-response, else nothing. */
  lemma CollectAnnounces(cfg: Config, s: State, t: nat, order: seq<nat>)
    requires Enabled(s, Collect(t, order)) && (ServerRoute(s.tasks[t].msg).Unicast? || ServerRoute(s.tasks[t].msg).FanOut?)
    ensures var s', route, hs := Apply(cfg, s, Collect(t, order)), ServerRoute(s.tasks[t].msg), s.tasks[t].hs;
      && s'.calls == s.calls && SamePeers(s, s') && t < |s'.tasks| && s'.tasks[t].conn == s.tasks[t].conn
      && (route.FanOut? ==> Announces(s', t, route.methodName, if route.mode.FullBroadcast? then order else []))
      && (route.Unicast? ==>
            Announces(s', t, route.methodName,
                      if route.mode.BroadcastResponse? && s.calls[hs[0]].stage.result.Ok? then [hs[0]] else []))
  {
    assert s.tasks[t].hs[..1] == [s.tasks[t].hs[0]];
  }

  /** With a stable set of a caller and n other peers, over every run after the
      answers of a full-broadcast are in, the notifications written and those
      still to be written are n (n - 1): each peer gets one about each other peer
      and none about itself, the caller gets none. */
  lemma FullBroadcastCounts(cfg: Config, s: State, t: nat, m: string, order: seq<nat>, ls: seq<Label>)
    requires Announces(s, t, m, order) && StablePeers(s, s.tasks[t].conn, ConnsOf(s, order))
    requires Runs(cfg, s, ls) && AllStable(ls)
    ensures var notes := NotesFor(s, s.tasks[t].conn, m, order);
      var all := Emitted(cfg, s, ls, t) + NoteFrames(s, NotesLeft(cfg, s, ls, t));
      && |all| == |order| * (|order| - 1)
      && Inbox(all, s.tasks[t].conn) == []
      && (forall i :: 0 <= i < |order| ==> Inbox(all, ConnsOf(s, order)[i]) == AllBut(notes, i))
      && (NotesLeft(cfg, s, ls, t) == [] ==> all == Emitted(cfg, s, ls, t))
  {
    var notes := NotesFor(s, s.tasks[t].conn, m, order);
    NotesConserved(cfg, s, ls, t, notes);
    NotesReach(s, s.tasks[t].conn, ConnsOf(s, order), notes);
    assert Emitted(cfg, s, ls, t) + NoteFrames(s, NotesLeft(cfg, s, ls, t)) == NoteFrames(s, notes);
  }

  predicate Succeeded(s: State, h: nat) {
    h < |s.calls| && s.calls[h].stage.Gone? && s.calls[h].stage.result.Ok?
  }

  /** Broadcast-response, over every run after the relayed call h succeeded: every
      open connection but the caller's and the target's gets one notification,
      which holds the target's name and result. */
  lemma BroadcastResponseCounts(cfg: Config, s: State, t: nat, m: string, h: nat, ls: seq<Label>, k: nat)
    requires Succeeded(s, h) && Announces(s, t, m, [h])
    requires k < |s.owners| && k in s.open && Runs(cfg, s, ls) && AllStable(ls)
    ensures var c := s.calls[h];
      Inbox(Emitted(cfg, s, ls, t) + NoteFrames(s, NotesLeft(cfg, s, ls, t)), k) ==
        if k != s.tasks[t].conn && k != c.conn then
          [Envelope(Notification(m, map["peer" := Str(NameOf(c.conn)), "result" := Obj(c.stage.result.value)]))]
        else []
  {
    var notes := NotesFor(s, s.tasks[t].conn, m, [h]);
    NotesConserved(cfg, s, ls, t, notes);
    InboxOfNotes(s, notes, k);
    OneNoteTo(notes, k);
  }

  lemma OneNoteTo(notes: seq<Note>, k: nat)
    requires |notes| == 1
    ensures NotesTo(notes, k) == if k in notes[0].exclude then [] else [Envelope(notes[0].msg)]
  {
    assert NotesTo(notes[1..], k) == [];
  }

  /** The j-th of these notifications says, field by field, whose answer it is
      and what that was: the result, or the error's code, message and data. */
  lemma NotesTellOutcomes(s: State, caller: nat, methodName: string, order: seq<nat>, j: nat)
    requires AllGone(s, order) && j < |order|
    ensures var c := s.calls[order[j]];
      SaysNotice(NotesFor(s, caller, methodName, order)[j].msg, methodName, NameOf(c.conn), c.stage.result)
  {
    NoticeSays(methodName, EntryFor(s.calls[order[j]]));
  }

  function SetOf(q: seq<nat>): (ks: set<nat>)
    ensures forall k :: k in ks <==> k in q
  {
    if q == [] then {} else {q[0]} + SetOf(q[1..])
  }

  lemma {:induction false} DistinctCount(q: seq<nat>)
    requires forall i, j :: 0 <= i < j < |q| ==> q[i] != q[j]
    ensures |SetOf(q)| == |q|
  {
    if q != [] {
      DistinctCount(q[1..]);
      assert q[0] !in q[1..];
    }
  }

  lemma OpenCount(open: set<nat>, caller: nat, peers: seq<nat>)
    requires forall k :: k in open <==> k in peers || k == caller
    requires caller !in peers && forall i, j :: 0 <= i < j < |peers| ==> peers[i] != peers[j]
    ensures |open| == |peers| + 1
  {
    DistinctCount(peers);
    assert open == SetOf(peers) + {caller};
  }
}
