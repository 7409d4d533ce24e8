/** Left alone, the network falls silent: with a fixed set of peers and no new
    application calls, every step lowers a weight on calls, frames, deliveries
    and tasks. Broken frames, bare ids and unknown responses are included, so no
    two endpoints can answer each other's errors forever. */
module Quiescence {
  import opened Wrappers
  import opened RpcTypes
  import opened Dispatch
  import opened Network
  import opened Sums

  // ----- weights, for n connections -----

  /** Notifying n peers. */
  function NoteWeight(n: nat): nat {
    1 + 4 * n
  }

  /** Serving a request: n calls of weight 10, then n notes and a reply. */
  function RequestWeight(n: nat): nat {
    7 + 10 * n + n * NoteWeight(n)
  }

  function FrameWeight(n: nat): Frame -> nat {
    (f: Frame) =>
      match ReadLoopAction(f.packet)
      case Ignore => 1
      case Resolve(_) => 2
      case Reply(_) => 3
      case Serve(_) => if f.up then 1 + RequestWeight(n) else 4
  }

  function CallWeight(n: nat): Call -> nat {
    (c: Call) =>
      var request := if c.origin.FromClient? then 1 + RequestWeight(n) else 4;
      match c.stage
      case Looking => request + 6
      case Taken => request + 5
      case Numbered => request + 4
      case Registered => request + 3
      case Waiting => 2
      case Finished(_) => 1
      case Gone(_) => 0
  }

  function TaskWeight(n: nat): Task -> nat {
    (t: Task) =>
      match t
      case AtClient(_, _) => 3
      case AtServer(_, _) => RequestWeight(n)
      case Awaiting(_, _, hs) => 6 + |hs| * NoteWeight(n)
      case Reporting(_, notes, reply) => 1 + |notes| * NoteWeight(n) + (if reply.Some? then 4 else 0)
  }

  function Weight(s: State): nat {
    var n := |s.owners|;
    Sum(s.calls, CallWeight(n)) + Sum(s.wire, FrameWeight(n)) + |s.posts| + Sum(s.tasks, TaskWeight(n))
  }

  // ----- every internal step lowers the weight -----

  lemma CallStepLowers(s: State, h: nat, c': Call)
    requires h < |s.calls| && CallWeight(|s.owners|)(c') < CallWeight(|s.owners|)(s.calls[h])
    ensures Weight(s.(calls := s.calls[h := c'])) < Weight(s)
  {
    SumUpdate(s.calls, h, c', CallWeight(|s.owners|));
  }

  lemma RequestFrameWeight(n: nat, c: Call)
    ensures FrameWeight(n)(Frame(c.origin.FromClient?, c.conn, Envelope(RequestOf(c))))
      <= if c.origin.FromClient? then 1 + RequestWeight(n) else 4
  {
  }

  lemma SendLowers(cfg: Config, s: State, h: nat)
    requires Enabled(s, Send(h))
    ensures Weight(Apply(cfg, s, Send(h))) < Weight(s)
  {
    var n, c := |s.owners|, s.calls[h];
    var f := Frame(c.origin.FromClient?, c.conn, Envelope(RequestOf(c)));
    SumUpdate(s.calls, h, c.(stage := Waiting), CallWeight(n));
    SumConcat(s.wire, [f], FrameWeight(n));
    SumOne(f, FrameWeight(n));
    RequestFrameWeight(n, c);
  }

  lemma InvokeLowers(cfg: Config, s: State, l: Label)
    requires Enabled(s, l)
    requires l.LookUp? || l.DrawNumber? || l.Register? || l.SendFails? || l.Receive? || l.Abandon? || l.Remove?
    ensures Weight(Apply(cfg, s, l)) < Weight(s)
  {
    CallStepLowers(s, l.h, Apply(cfg, s, l).calls[l.h]);
  }

  lemma FillLowers(cfg: Config, s: State, j: nat)
    requires Enabled(s, Fill(j))
    ensures Weight(Apply(cfg, s, Fill(j))) < Weight(s)
  {
    var p := s.posts[j];
    var c := s.calls[p.call];
    SlotWeighsNothing(s, p.call, if c.slot.None? then Some(p.msg) else c.slot);
    assert c.slot.Some? ==> c.(slot := c.slot) == c;
  }

  lemma SlotWeighsNothing(s: State, h: nat, slot: Option<Message>)
    requires h < |s.calls|
    ensures Sum(s.calls[h := s.calls[h].(slot := slot)], CallWeight(|s.owners|)) == Sum(s.calls, CallWeight(|s.owners|))
  {
    SumUpdate(s.calls, h, s.calls[h].(slot := slot), CallWeight(|s.owners|));
  }

  lemma AddFrames(s: State, fs: seq<Frame>)
    ensures Weight(s.(wire := s.wire + fs)) == Weight(s) + Sum(fs, FrameWeight(|s.owners|))
  {
    SumConcat(s.wire, fs, FrameWeight(|s.owners|));
  }

  lemma AddTask(s: State, t: Task)
    ensures Weight(s.(tasks := s.tasks + [t])) == Weight(s) + TaskWeight(|s.owners|)(t)
  {
    SumConcat(s.tasks, [t], TaskWeight(|s.owners|));
    SumOne(t, TaskWeight(|s.owners|));
  }

  /** A read loop's own error reply is a response. */
  lemma FallbackWeight(n: nat, f: Frame, msg: Message)
    requires ReadLoopAction(f.packet) == Reply(msg)
    ensures FrameWeight(n)(f) == 3 && FrameWeight(n)(Frame(!f.up, f.conn, Envelope(msg))) == 2
  {
  }

  /** What a read loop makes of a frame weighs less than the frame. */
  lemma ReceivingAdds(s: State, f: Frame)
    requires f.conn < |s.owners| && (!f.up ==> s.owners[f.conn].Some?)
    ensures Weight(Receiving(s, f)) < Weight(s) + FrameWeight(|s.owners|)(f)
  {
    match ReadLoopAction(f.packet) {
      case Reply(msg) =>
        var g := Frame(!f.up, f.conn, Envelope(msg));
        AddFrames(s, [g]);
        SumOne(g, FrameWeight(|s.owners|));
        FallbackWeight(|s.owners|, f, msg);
      case Serve(msg) =>
        var task := if f.up then AtServer(f.conn, msg) else AtClient(f.conn, msg);
        AddTask(s, task);
        assert TaskWeight(|s.owners|)(task) < FrameWeight(|s.owners|)(f);
      case _ =>
    }
  }

  lemma DeliverLowers(cfg: Config, s: State, i: nat)
    requires Enabled(s, Deliver(i))
    ensures Weight(Apply(cfg, s, Deliver(i))) < Weight(s)
  {
    SumRemove(s.wire, i, FrameWeight(|s.owners|));
    ReceivingAdds(s.(wire := RemoveAt(s.wire, i)), s.wire[i]);
  }

  /** A task that leaves, writing at most one frame. */
  lemma EndLowers(s: State, t: nat, fs: seq<Frame>)
    requires t < |s.tasks| && Sum(fs, FrameWeight(|s.owners|)) < TaskWeight(|s.owners|)(s.tasks[t])
    ensures Weight(s.(tasks := RemoveAt(s.tasks, t), wire := s.wire + fs)) < Weight(s)
  {
    SumRemove(s.tasks, t, TaskWeight(|s.owners|));
    SumConcat(s.wire, fs, FrameWeight(|s.owners|));
  }

  lemma RunClientLowers(cfg: Config, s: State, t: nat)
    requires Enabled(s, RunClient(t))
    ensures Weight(Apply(cfg, s, RunClient(t))) < Weight(s)
  {
    var task := s.tasks[t];
    var reply := ClientReply(cfg.client(s.owners[task.conn].value), task.msg);
    if reply.Some? {
      SumOne(Frame(true, task.conn, Envelope(reply.value)), FrameWeight(|s.owners|));
    }
    EndLowers(s, t, if reply.Some? then [Frame(true, task.conn, Envelope(reply.value))] else []);
  }

  lemma FinishLowers(cfg: Config, s: State, t: nat)
    requires Enabled(s, Finish(t))
    ensures Weight(Apply(cfg, s, Finish(t))) < Weight(s)
  {
    var task := s.tasks[t];
    if task.reply.Some? {
      SumOne(Frame(false, task.conn, Envelope(task.reply.value)), FrameWeight(|s.owners|));
    }
    EndLowers(s, t, if task.reply.Some? then [Frame(false, task.conn, Envelope(task.reply.value))] else []);
  }

  lemma SpeakingLowers(s: State, t: nat, v: Option<Verdict>)
    requires t < |s.tasks| && s.tasks[t].AtServer?
    ensures Weight(Speaking(s, t, v)) < Weight(s)
  {
    var n, task' := |s.owners|, Reporting(s.tasks[t].conn, [], Answered(s.tasks[t].msg, v));
    assert TaskWeight(n)(task') <= 5 < TaskWeight(n)(s.tasks[t]);
    SumUpdate(s.tasks, t, task', TaskWeight(n));
  }

  lemma RelayingLowers(s: State, t: nat, targets: seq<nat>, m: string, params: Params)
    requires t < |s.tasks| && s.tasks[t].AtServer? && |targets| <= |s.owners|
    ensures Weight(Relaying(s, t, targets, m, params)) < Weight(s)
  {
    var n, k := |s.owners|, |targets|;
    var s' := Relaying(s, t, targets, m, params);
    SumUpdate(s.tasks, t, s'.tasks[t], TaskWeight(n));
    SumConcat(s.calls, RelayCalls(targets, m, params), CallWeight(n));
    SumBound(RelayCalls(targets, m, params), CallWeight(n), 10);
    NoteWeightMonotone(k, n);
  }

  lemma NoteWeightMonotone(k: nat, n: nat)
    requires k <= n
    ensures k * NoteWeight(n) <= n * NoteWeight(n)
  {
  }

  lemma ServingLowers(cfg: Config, s: State, t: nat, interrupted: bool)
    requires t < |s.tasks| && s.tasks[t].AtServer?
    ensures Weight(Serving(cfg, s, t, interrupted)) < Weight(s)
  {
    match ServerRoute(s.tasks[t].msg) {
      case Answer(v) => SpeakingLowers(s, t, Some(v));
      case ListPeers => SpeakingLowers(s, t, Some(PeersVerdict(Names(Members(|s.owners|, s.open)))));
      case Local(m, params) => SpeakingLowers(s, t, LocalVerdict(cfg.server, m, params, interrupted));
      case Unicast(target, _, m, params) =>
        var k := PeerNamed(|s.owners|, s.open, target);
        if k.None? {
          SpeakingLowers(s, t, Some(PeerNotFound(target)));
        } else {
          RelayingLowers(s, t, [k.value], m, params);
        }
      case FanOut(_, m, params) =>
        var targets := Members(|s.owners|, s.open - {s.tasks[t].conn});
        if targets == [] {
          SpeakingLowers(s, t, Some(NoPeers));
        } else {
          RelayingLowers(s, t, targets, m, params);
        }
    }
  }

  lemma NotesAreFew(s: State, t: nat, order: seq<nat>)
    requires Enabled(s, Collect(t, order))
    ensures Collecting(s, t, order).tasks[t].Reporting?
    ensures |Collecting(s, t, order).tasks[t].notes| <= |s.tasks[t].hs|
  {
    assert |multiset(order)| == |order| && |multiset(s.tasks[t].hs)| == |s.tasks[t].hs|;
  }

  /** A report on a relay weighs less than the relay. */
  lemma ReportLowers(s: State, t: nat, task': Task)
    requires t < |s.tasks| && s.tasks[t].Awaiting? && task'.Reporting? && |task'.notes| <= |s.tasks[t].hs|
    ensures Weight(s.(tasks := s.tasks[t := task'])) < Weight(s)
  {
    ShorterWeighsLess(|task'.notes|, |s.tasks[t].hs|, |s.owners|);
    SumUpdate(s.tasks, t, task', TaskWeight(|s.owners|));
  }

  lemma CollectLowers(cfg: Config, s: State, t: nat, order: seq<nat>)
    requires Enabled(s, Collect(t, order))
    ensures Weight(Apply(cfg, s, Collect(t, order))) < Weight(s)
  {
    NotesAreFew(s, t, order);
    var task' := Collecting(s, t, order).tasks[t];
    ReportLowers(s, t, task');
  }

  lemma ShorterWeighsLess(k: nat, m: nat, n: nat)
    requires k <= m
    ensures k * NoteWeight(n) <= m * NoteWeight(n)
  {
  }

  lemma BroadcastWeight(n: nat, ks: seq<nat>, msg: Message)
    requires |ks| <= n
    ensures Sum(Broadcast(ks, msg), FrameWeight(n)) <= 4 * n
  {
    SumBound(Broadcast(ks, msg), FrameWeight(n), 4);
  }

  lemma OneNoteLess(s: State, t: nat)
    requires t < |s.tasks| && s.tasks[t].Reporting? && s.tasks[t].notes != []
    ensures var task' := s.tasks[t].(notes := s.tasks[t].notes[1..]);
      Weight(s.(tasks := s.tasks[t := task'])) == Weight(s) - NoteWeight(|s.owners|)
  {
    var n, task := |s.owners|, s.tasks[t];
    SumUpdate(s.tasks, t, task.(notes := task.notes[1..]), TaskWeight(n));
    assert |task.notes| * NoteWeight(n) == NoteWeight(n) + (|task.notes| - 1) * NoteWeight(n);
  }

  lemma EmitLowers(cfg: Config, s: State, t: nat)
    requires Enabled(s, Emit(t))
    ensures Weight(Apply(cfg, s, Emit(t))) < Weight(s)
  {
    var note := s.tasks[t].notes[0];
    var ks := Members(|s.owners|, s.open - note.exclude);
    OneNoteLess(s, t);
    AddFrames(s.(tasks := s.tasks[t := s.tasks[t].(notes := s.tasks[t].notes[1..])]), Broadcast(ks, note.msg));
    BroadcastWeight(|s.owners|, ks, note.msg);
  }

  lemma ServerStepLowers(cfg: Config, s: State, l: Label)
    requires Enabled(s, l) && (l.RunServer? || l.Collect? || l.Emit? || l.Finish?)
    ensures Weight(Apply(cfg, s, l)) < Weight(s)
  {
    match l {
      case RunServer(t, interrupted) => ServingLowers(cfg, Noted(s, t), t, interrupted);
      case Collect(t, order) => CollectLowers(cfg, s, t, order);
      case Emit(t) => EmitLowers(cfg, s, t);
      case Finish(t) => FinishLowers(cfg, s, t);
    }
  }

  lemma StepLowersWeight(cfg: Config, s: State, l: Label)
    requires Enabled(s, l) && Internal(l)
    ensures Weight(Apply(cfg, s, l)) < Weight(s)
  {
    if l.RunServer? || l.Collect? || l.Emit? || l.Finish? {
      ServerStepLowers(cfg, s, l);
    } else if l.Send? {
      SendLowers(cfg, s, l.h);
    } else if l.Deliver? {
      DeliverLowers(cfg, s, l.i);
    } else if l.Fill? {
      FillLowers(cfg, s, l.j);
    } else if l.RunClient? {
      RunClientLowers(cfg, s, l.t);
    } else {
      InvokeLowers(cfg, s, l);
    }
  }

  /** From any state at all, a run without new connections, application calls or
      injected frames has at most as many steps as the state weighs. */
  lemma {:induction false} InternalRunsEnd(cfg: Config, s: State, ls: seq<Label>)
    requires Runs(cfg, s, ls) && forall i :: 0 <= i < |ls| ==> Internal(ls[i])
    ensures |ls| <= Weight(s)
    decreases |ls|
  {
    if ls != [] {
      StepLowersWeight(cfg, s, ls[0]);
      InternalRunsEnd(cfg, Apply(cfg, s, ls[0]), ls[1..]);
    }
  }
}
