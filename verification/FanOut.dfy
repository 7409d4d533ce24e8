/** The concurrent part of dispatchFanOut (pkg/holonrpc/routing.go). One worker per target calls Invoke and sends its
    entry to a channel that holds one entry per target; the dispatcher waits for
    all workers, closes the channel and drains it. */
module FanOut {
  import opened RpcTypes
  import opened Dispatch
  import opened Sums

  /** `Deferring` has sent its entry and has wg.Done left to run. */
  datatype Worker = Invoking | Sending(answer: InvokeResult) | Deferring(answer: InvokeResult) | Exited(answer: InvokeResult)

  datatype Dispatcher = Waiting | Draining | Done

  /** `order` is a history variable: the workers in the order of their sends. */
  datatype State = State(
    targets: seq<string>,
    workers: seq<Worker>,
    waitGroup: int,
    channel: seq<Entry>,
    main: Dispatcher,
    entries: seq<Entry>,
    order: seq<nat>)

  function Start(targets: seq<string>): State {
    State(targets, seq(|targets|, _ => Invoking), |targets|, [], Waiting, [], [])
  }

  datatype Label = InvokeReturns(i: nat, result: InvokeResult) | Send(i: nat) | WorkerDone(i: nat) | Drain

  predicate Enabled(s: State, l: Label) {
    match l
    case InvokeReturns(i, _) => i < |s.workers| && s.workers[i].Invoking?
    case Send(i) => i < |s.workers| && s.workers[i].Sending? && |s.channel| < |s.targets| && i < |s.targets|
    case WorkerDone(i) => i < |s.workers| && s.workers[i].Deferring?
    case Drain =>
      match s.main
      case Waiting => s.waitGroup == 0
      case Draining => true
      case Done => false
  }

  function Apply(s: State, l: Label): State
    requires Enabled(s, l)
  {
    match l
    case InvokeReturns(i, result) => s.(workers := s.workers[i := Sending(result)])
    case Send(i) =>
      s.(workers := s.workers[i := Deferring(s.workers[i].answer)],
         channel := s.channel + [Entry(s.targets[i], s.workers[i].answer)],
         order := s.order + [i])
    case WorkerDone(i) =>
      s.(workers := s.workers[i := Exited(s.workers[i].answer)], waitGroup := s.waitGroup - 1)
    case Drain =>
      if s.main.Waiting? then s.(main := Draining)
      else if s.channel == [] then s.(main := Done)
      else s.(channel := s.channel[1..], entries := s.entries + [s.channel[0]])
  }

  predicate Runs(s: State, ls: seq<Label>)
    decreases |ls|
  {
    ls == [] || (Enabled(s, ls[0]) && Runs(Apply(s, ls[0]), ls[1..]))
  }

  function Exec(s: State, ls: seq<Label>): State
    requires Runs(s, ls)
    decreases |ls|
  {
    if ls == [] then s else Exec(Apply(s, ls[0]), ls[1..])
  }

  predicate Sent(w: Worker) {
    w.Deferring? || w.Exited?
  }

  function LiveWeight(w: Worker): nat {
    if w.Exited? then 0 else 1
  }

  /** Workers that have not run wg.Done. */
  function Live(ws: seq<Worker>): nat {
    Sum(ws, LiveWeight)
  }

  lemma LiveAfter(ws: seq<Worker>, i: nat, w: Worker)
    requires i < |ws|
    ensures Live(ws[i := w]) == Live(ws) - LiveWeight(ws[i]) + LiveWeight(w)
  {
    SumUpdate(ws, i, w, LiveWeight);
  }

  lemma {:induction false} LiveZero(ws: seq<Worker>)
    ensures Live(ws) == 0 <==> forall i :: 0 <= i < |ws| ==> ws[i].Exited?
  {
    if ws != [] {
      LiveZero(ws[1..]);
      assert forall i :: 0 < i < |ws| ==> ws[i] == ws[1..][i - 1];
    }
  }

  predicate NoDuplicates<T(==)>(q: seq<T>) {
    forall i, j :: 0 <= i < j < |q| ==> q[i] != q[j]
  }

  /** Distinct numbers below n are at most n, and fewer if one is missing. */
  lemma {:induction false} DistinctBelow(q: seq<nat>, n: nat)
    requires NoDuplicates(q) && forall j :: 0 <= j < |q| ==> q[j] < n
    ensures |q| <= n
    ensures |q| == n <==> forall i: nat :: i < n ==> i in q
    decreases n
  {
    if q == [] {
      var smallest: nat := 0;
      assert smallest !in q;
    } else if q[0] < n && n - 1 in q {
      var j :| 0 <= j < |q| && q[j] == n - 1;
      var r := q[..j] + q[j + 1..];
      assert forall k :: 0 <= k < |r| ==> r[k] == q[if k < j then k else k + 1];
      DistinctBelow(r, n - 1);
      forall i: nat | i < n - 1 ensures i in r <==> i in q {
        if i in q {
          var k :| 0 <= k < |q| && q[k] == i;
          assert r[if k < j then k else k - 1] == i;
        }
      }
    } else {
      DistinctBelow(q, n - 1);
    }
  }

  ghost predicate Inv(s: State) {
    && |s.workers| == |s.targets|
    && s.waitGroup == Live(s.workers)
    && NoDuplicates(s.order)
    && (forall j :: 0 <= j < |s.order| ==> s.order[j] < |s.workers| && Sent(s.workers[s.order[j]]))
    && (forall i :: 0 <= i < |s.workers| && Sent(s.workers[i]) ==> i in s.order)
    && |s.entries| + |s.channel| == |s.order|
    && (forall j :: 0 <= j < |s.order| ==> (s.entries + s.channel)[j] == EntryOf(s, s.order[j]))
    && (!s.main.Waiting? ==> s.waitGroup == 0)
    && (s.main.Done? ==> s.channel == [])
  }

  function EntryOf(s: State, i: nat): Entry
    requires i < |s.workers| && i < |s.targets| && Sent(s.workers[i])
  {
    Entry(s.targets[i], s.workers[i].answer)
  }

  lemma SendKeepsInv(s: State, i: nat)
    requires Inv(s) && Enabled(s, Send(i))
    ensures Inv(Apply(s, Send(i)))
  {
    var s' := Apply(s, Send(i));
    LiveAfter(s.workers, i, Deferring(s.workers[i].answer));
    LiveZero(s.workers);
    assert s'.entries + s'.channel == s.entries + s.channel + [EntryOf(s', i)];
    forall k | 0 <= k < |s'.workers| && Sent(s'.workers[k]) ensures k in s'.order {
      if k == i {
        assert s'.order[|s.order|] == i;
      } else {
        assert k in s.order;
      }
    }
  }

  lemma WorkerDoneKeepsInv(s: State, i: nat)
    requires Inv(s) && Enabled(s, WorkerDone(i))
    ensures Inv(Apply(s, WorkerDone(i)))
  {
    LiveAfter(s.workers, i, Exited(s.workers[i].answer));
    LiveZero(s.workers);
  }

  lemma StepKeepsInv(s: State, l: Label)
    requires Inv(s) && Enabled(s, l)
    ensures Inv(Apply(s, l))
  {
    match l {
      case InvokeReturns(i, r) => LiveAfter(s.workers, i, Sending(r));
      case Send(i) => SendKeepsInv(s, i);
      case WorkerDone(i) => WorkerDoneKeepsInv(s, i);
      case Drain =>
        if s.main.Draining? && s.channel != [] {
          assert s.entries + s.channel == Apply(s, l).entries + Apply(s, l).channel;
        }
    }
  }

  lemma {:induction false} RunKeepsInv(s: State, ls: seq<Label>)
    requires Inv(s) && Runs(s, ls)
    ensures Inv(Exec(s, ls)) && Exec(s, ls).targets == s.targets
    decreases |ls|
  {
    if ls != [] {
      StepKeepsInv(s, ls[0]);
      RunKeepsInv(Apply(s, ls[0]), ls[1..]);
    }
  }

  lemma {:induction false} StartInv(targets: seq<string>)
    ensures Inv(Start(targets))
  {
    LiveAtStart(|targets|);
  }

  lemma {:induction false} LiveAtStart(n: nat)
    ensures Live(seq(n, _ => Invoking)) == n
  {
    if n > 0 {
      LiveAtStart(n - 1);
      assert seq(n, _ => Invoking)[1..] == seq(n - 1, _ => Invoking);
    }
  }

  /** A step that does not depend on what Invoke returns. */
  predicate OwnStep(l: Label) {
    !l.InvokeReturns?
  }

  /** No worker ever blocks on the results channel. */
  lemma SendNeverBlocks(targets: seq<string>, ls: seq<Label>, i: nat)
    requires Runs(Start(targets), ls)
    requires var s := Exec(Start(targets), ls); i < |s.workers| && s.workers[i].Sending?
    ensures Enabled(Exec(Start(targets), ls), Send(i))
  {
    StartInv(targets);
    RunKeepsInv(Start(targets), ls);
    var s := Exec(Start(targets), ls);
    RoomForSender(s, i);
  }

  lemma RoomForSender(s: State, i: nat)
    requires Inv(s) && i < |s.workers| && s.workers[i].Sending?
    ensures |s.channel| < |s.targets|
  {
    DistinctBelow(s.order, |s.workers|);
    assert i !in s.order;
  }

  lemma NextOwnStep(s: State) returns (l: Label)
    requires Inv(s) && !s.main.Done?
    requires forall i :: 0 <= i < |s.workers| ==> !s.workers[i].Invoking?
    ensures OwnStep(l) && Enabled(s, l)
  {
    if i :| 0 <= i < |s.workers| && s.workers[i].Sending? {
      RoomForSender(s, i);
      l := Send(i);
    } else if i :| 0 <= i < |s.workers| && s.workers[i].Deferring? {
      l := WorkerDone(i);
    } else {
      LiveZero(s.workers);
      l := Drain;
    }
  }

  /** The fan-out is never stuck: until it is done, some call has yet to return
      or a step of its own is enabled. */
  lemma NoDeadlock(targets: seq<string>, ls: seq<Label>)
    requires Runs(Start(targets), ls)
    ensures var s := Exec(Start(targets), ls);
      || s.main.Done?
      || (exists i :: 0 <= i < |s.workers| && s.workers[i].Invoking?)
      || (exists l :: OwnStep(l) && Enabled(s, l))
  {
    StartInv(targets);
    RunKeepsInv(Start(targets), ls);
    var s := Exec(Start(targets), ls);
    if !s.main.Done? && forall i :: 0 <= i < |s.workers| ==> !s.workers[i].Invoking? {
      var l := NextOwnStep(s);
    }
  }

  function WorkerRank(w: Worker): nat {
    match w
    case Invoking => 6
    case Sending(_) => 5
    case Deferring(_) => 3
    case Exited(_) => 0
  }

  function Rank(s: State): nat {
    Sum(s.workers, WorkerRank) + |s.channel| +
    match s.main case Waiting => 2 case Draining => 1 case Done => 0
  }

  /** Every step, in any order, brings the end of the fan-out closer. */
  lemma StepLowersRank(s: State, l: Label)
    requires Enabled(s, l)
    ensures Rank(Apply(s, l)) < Rank(s)
  {
    match l {
      case InvokeReturns(i, r) => SumUpdate(s.workers, i, Sending(r), WorkerRank);
      case Send(i) => SumUpdate(s.workers, i, Deferring(s.workers[i].answer), WorkerRank);
      case WorkerDone(i) => SumUpdate(s.workers, i, Exited(s.workers[i].answer), WorkerRank);
      case Drain =>
    }
  }

  /** When the fan-out is done, its entries are the targets' own answers, in
      some order: `order` is a permutation of the workers. */
  lemma EntriesArePermutation(targets: seq<string>, ls: seq<Label>)
    requires Runs(Start(targets), ls) && Exec(Start(targets), ls).main.Done?
    ensures var s := Exec(Start(targets), ls);
      && |s.entries| == |targets| == |s.order| == |s.workers|
      && NoDuplicates(s.order) && (forall i: nat :: i < |targets| ==> i in s.order)
      && forall j :: 0 <= j < |targets| ==>
           s.order[j] < |targets| && Sent(s.workers[s.order[j]]) &&
           s.entries[j] == Entry(targets[s.order[j]], s.workers[s.order[j]].answer)
  {
    StartInv(targets);
    RunKeepsInv(Start(targets), ls);
    var s := Exec(Start(targets), ls);
    LiveZero(s.workers);
    DistinctBelow(s.order, |s.workers|);
    assert s.entries + s.channel == s.entries;
  }
}
