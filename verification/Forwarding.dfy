/** How many requests a fan-out forwards, and to whom, over every run
    (pkg/holonrpc/routing.go, dispatchFanOut). */
module Forwarding {
  import opened RpcTypes
  import opened Dispatch
  import opened Network
  import opened NetworkSteps
  import opened NetworkTheorems
  import opened FullBroadcast

  /** The call has written its request. */
  predicate PastSend(c: Call) {
    c.stage.Waiting? || c.stage.Finished? || c.stage.Gone?
  }

  /** What a relay's call must still be: for this peer, method and params. */
  predicate Asks(s: State, h: nat, conn: nat, methodName: string, params: Params) {
    && h < |s.calls| && s.calls[h].origin.FromServer? && s.calls[h].conn == conn
    && s.calls[h].methodName == methodName && s.calls[h].params == params
  }

  // ----- one call -----

  /** Nothing but its own Send takes a call past the writing of its request,
      while its peer is open and its write does not fail. */
  lemma OnlySendPassesSend(cfg: Config, s: State, l: Label, h: nat, conn: nat, m: string, params: Params)
    requires Enabled(s, l) && Asks(s, h, conn, m, params) && conn in s.open && !(l.SendFails? && l.h == h)
    ensures Asks(Apply(cfg, s, l), h, conn, m, params)
    ensures PastSend(Apply(cfg, s, l).calls[h]) <==> PastSend(s.calls[h]) || l == Send(h)
    ensures l == Send(h) ==> !PastSend(s.calls[h])
  {
    if l.RunServer? {
      ServingKeepsCalls(cfg, Noted(s, l.t), l.t, l.interrupted);
    } else if l.Collect? {
      CollectingKeepsCalls(s, l.t, l.order);
    } else if l.Deliver? || l.RunClient? || l.Emit? || l.Finish? {
      OthersKeepCalls(cfg, s, l);
    }
  }

  // ----- all calls of a relay -----

  /** Calls from..from+n are the ones that ask the targets. */
  predicate AskAll(s: State, from: nat, targets: seq<nat>, methodName: string, params: Params) {
    forall j :: 0 <= j < |targets| ==> Asks(s, from + j, targets[j], methodName, params)
  }

  predicate PeersOpen(s: State, targets: seq<nat>) {
    forall j :: 0 <= j < |targets| ==> targets[j] in s.open
  }

  /** The peer table stays as it is, and no write of calls from..from+n fails. */
  predicate Calm(l: Label, from: nat, n: nat) {
    Stable(l) && !(l.SendFails? && from <= l.h < from + n)
  }

  predicate AllCalm(ls: seq<Label>, from: nat, n: nat) {
    forall i :: 0 <= i < |ls| ==> Calm(ls[i], from, n)
  }

  /** The frames that the step writes for calls from..from+n. */
  function ForwardedBy(cfg: Config, s: State, l: Label, from: nat, n: nat): seq<Frame>
    requires Enabled(s, l)
  {
    if l.Send? && from <= l.h < from + n && |Apply(cfg, s, l).wire| >= |s.wire| then Apply(cfg, s, l).wire[|s.wire|..] else []
  }

  function Forwarded(cfg: Config, s: State, ls: seq<Label>, from: nat, n: nat): seq<Frame>
    requires Runs(cfg, s, ls)
    decreases |ls|
  {
    if ls == [] then []
    else ForwardedBy(cfg, s, ls[0], from, n) + Forwarded(cfg, Apply(cfg, s, ls[0]), ls[1..], from, n)
  }

  predicate IsSent(s: State, h: nat) {
    h < |s.calls| && PastSend(s.calls[h])
  }

  function Unsent(s: State, from: nat, n: nat): nat {
    if n == 0 then 0
    else Unsent(s, from, n - 1) + (if IsSent(s, from + n - 1) then 0 else 1)
  }

  lemma SendWrites(cfg: Config, s: State, h: nat, from: nat, n: nat)
    requires Enabled(s, Send(h)) && from <= h < from + n
    ensures ForwardedBy(cfg, s, Send(h), from, n) ==
      [Frame(s.calls[h].origin.FromClient?, s.calls[h].conn, Envelope(RequestOf(s.calls[h])))]
  {
    var f := Frame(s.calls[h].origin.FromClient?, s.calls[h].conn, Envelope(RequestOf(s.calls[h])));
    assert (s.wire + [f])[|s.wire|..] == [f];
  }

  lemma StepKeepsAsking(cfg: Config, s: State, l: Label, from: nat, targets: seq<nat>, m: string, params: Params)
    requires Enabled(s, l) && Calm(l, from, |targets|) && AskAll(s, from, targets, m, params) && PeersOpen(s, targets)
    ensures AskAll(Apply(cfg, s, l), from, targets, m, params) && PeersOpen(Apply(cfg, s, l), targets)
  {
    StableStepKeepsPeers(cfg, s, l);
    forall j | 0 <= j < |targets| ensures Asks(Apply(cfg, s, l), from + j, targets[j], m, params) {
      OnlySendPassesSend(cfg, s, l, from + j, targets[j], m, params);
    }
  }

  /** A request written is one call less to write. */
  lemma {:induction false} StepSpendsUnsent(cfg: Config, s: State, l: Label, from: nat, targets: seq<nat>, n: nat,
                                            m: string, params: Params)
    requires Enabled(s, l) && Calm(l, from, |targets|) && AskAll(s, from, targets, m, params) && PeersOpen(s, targets)
    requires n <= |targets|
    ensures Unsent(Apply(cfg, s, l), from, n) + (if l.Send? && from <= l.h < from + n then 1 else 0) == Unsent(s, from, n)
  {
    if n > 0 {
      StepSpendsUnsent(cfg, s, l, from, targets, n - 1, m, params);
      OnlySendPassesSend(cfg, s, l, from + (n - 1), targets[n - 1], m, params);
    }
  }

  lemma {:induction false} ForwardedCount(cfg: Config, s: State, ls: seq<Label>, from: nat, targets: seq<nat>,
                                          m: string, params: Params)
    requires Runs(cfg, s, ls) && AllCalm(ls, from, |targets|)
    requires AskAll(s, from, targets, m, params) && PeersOpen(s, targets)
    ensures |Forwarded(cfg, s, ls, from, |targets|)| + Unsent(Exec(cfg, s, ls), from, |targets|) == Unsent(s, from, |targets|)
    decreases |ls|
  {
    if ls != [] {
      var l := ls[0];
      StepKeepsAsking(cfg, s, l, from, targets, m, params);
      StepSpendsUnsent(cfg, s, l, from, targets, |targets|, m, params);
      if l.Send? && from <= l.h < from + |targets| {
        SendWrites(cfg, s, l.h, from, |targets|);
      }
      ForwardedCount(cfg, Apply(cfg, s, l), ls[1..], from, targets, m, params);
    }
  }

  /** A packet is the request that a relay forwards. */
  predicate IsForwarded(p: Packet, methodName: string, params: Params) {
    && p.Envelope? && p.msg == RequestMessage(p.msg.id, methodName, params)
    && HasID(p.msg.id)
  }

  predicate IsOneRequest(ps: seq<Packet>, methodName: string, params: Params) {
    |ps| == 1 && IsForwarded(ps[0], methodName, params)
  }

  /** A step sends the j-th target its request exactly when it is the j-th
      call's Send. */
  lemma StepReaches(cfg: Config, s: State, l: Label, from: nat, targets: seq<nat>, j: nat, m: string, params: Params)
    requires Enabled(s, l) && AskAll(s, from, targets, m, params) && j < |targets|
    requires forall a, b :: 0 <= a < b < |targets| ==> targets[a] != targets[b]
    ensures var ps := Inbox(ForwardedBy(cfg, s, l, from, |targets|), targets[j]);
      if l == Send(from + j) then IsOneRequest(ps, m, params) else ps == []
  {
    if l.Send? && from <= l.h < from + |targets| {
      var i := l.h - from;
      assert Asks(s, from + i, targets[i], m, params);
      SendReaches(cfg, s, l.h, from, |targets|, targets[i], m, params, targets[j]);
    }
  }

  /** The request arrives at the peer it is for, and nowhere else. */
  lemma SendReaches(cfg: Config, s: State, h: nat, from: nat, n: nat, conn: nat, m: string, params: Params, k: nat)
    requires Enabled(s, Send(h)) && from <= h < from + n && Asks(s, h, conn, m, params)
    ensures var ps := Inbox(ForwardedBy(cfg, s, Send(h), from, n), k);
      if k == conn then IsOneRequest(ps, m, params) else ps == []
  {
    SendWrites(cfg, s, h, from, n);
    KeyIsIdKey(s.calls[h]);
    InboxOfFrame(Frame(false, conn, Envelope(RequestOf(s.calls[h]))), k);
  }

  lemma InboxOfFrame(f: Frame, k: nat)
    ensures Inbox([f], k) == First(f, k)
  {
    assert Inbox([], k) == [];
  }

  lemma {:induction false} ForwardedReaches(cfg: Config, s: State, ls: seq<Label>, from: nat, targets: seq<nat>, j: nat,
                                            m: string, params: Params)
    requires Runs(cfg, s, ls) && AllCalm(ls, from, |targets|) && j < |targets|
    requires AskAll(s, from, targets, m, params) && PeersOpen(s, targets)
    requires forall a, b :: 0 <= a < b < |targets| ==> targets[a] != targets[b]
    ensures from + j < |s.calls| && from + j < |Exec(cfg, s, ls).calls|
    ensures var ps := Inbox(Forwarded(cfg, s, ls, from, |targets|), targets[j]);
      if PastSend(s.calls[from + j]) || !PastSend(Exec(cfg, s, ls).calls[from + j]) then ps == []
      else IsOneRequest(ps, m, params)
    ensures PastSend(s.calls[from + j]) ==> PastSend(Exec(cfg, s, ls).calls[from + j])
    decreases |ls|
  {
    assert Asks(s, from + j, targets[j], m, params);
    if ls != [] {
      var l := ls[0];
      StepKeepsAsking(cfg, s, l, from, targets, m, params);
      OnlySendPassesSend(cfg, s, l, from + j, targets[j], m, params);
      StepReaches(cfg, s, l, from, targets, j, m, params);
      ForwardedReaches(cfg, Apply(cfg, s, l), ls[1..], from, targets, j, m, params);
      InboxConcat(ForwardedBy(cfg, s, l, from, |targets|), Forwarded(cfg, Apply(cfg, s, l), ls[1..], from, |targets|), targets[j]);
    }
  }

  lemma {:induction false} NoneSentYet(s: State, from: nat, n: nat)
    requires forall h: nat :: from <= h < from + n ==> !IsSent(s, h)
    ensures Unsent(s, from, n) == n
  {
    if n > 0 {
      NoneSentYet(s, from, n - 1);
    }
  }

  lemma {:induction false} AllSent(s: State, from: nat, n: nat)
    requires forall h: nat :: from <= h < from + n ==> IsSent(s, h)
    ensures Unsent(s, from, n) == 0
  {
    if n > 0 {
      AllSent(s, from, n - 1);
    }
  }

  lemma HandlesAreSent(s: State, from: nat, n: nat)
    requires AllGone(s, Handles(from, n))
    ensures forall h: nat :: from <= h < from + n ==> IsSent(s, h)
  {
    forall h: nat | from <= h < from + n ensures IsSent(s, h) {
      assert Handles(from, n)[h - from] == h;
    }
  }

  lemma NewCallsAsk(s: State, targets: seq<nat>, m: string, params: Params, s': State)
    requires s'.calls == s.calls + RelayCalls(targets, m, params)
    ensures AskAll(s', |s.calls|, targets, m, params)
    ensures forall h: nat :: |s.calls| <= h < |s.calls| + |targets| ==> !IsSent(s', h)
  {
    forall j | 0 <= j < |targets| ensures Asks(s', |s.calls| + j, targets[j], m, params) {
      assert s'.calls[|s.calls| + j] == RelayCalls(targets, m, params)[j];
    }
    forall h: nat | |s.calls| <= h < |s.calls| + |targets| ensures !IsSent(s', h) {
      assert s'.calls[h] == RelayCalls(targets, m, params)[h - |s.calls|];
    }
  }

  /** From n calls that have yet to be written to n calls that have returned. */
  lemma AllForwarded(cfg: Config, s: State, ls: seq<Label>, from: nat, targets: seq<nat>, m: string, params: Params)
    requires Runs(cfg, s, ls) && AllCalm(ls, from, |targets|)
    requires AskAll(s, from, targets, m, params) && PeersOpen(s, targets)
    requires forall a, b :: 0 <= a < b < |targets| ==> targets[a] != targets[b]
    requires forall h: nat :: from <= h < from + |targets| ==> !IsSent(s, h)
    requires AllGone(Exec(cfg, s, ls), Handles(from, |targets|))
    ensures var sent := Forwarded(cfg, s, ls, from, |targets|);
      && |sent| == |targets|
      && forall j :: 0 <= j < |targets| ==> IsOneRequest(Inbox(sent, targets[j]), m, params)
  {
    HandlesAreSent(Exec(cfg, s, ls), from, |targets|);
    NoneSentYet(s, from, |targets|);
    AllSent(Exec(cfg, s, ls), from, |targets|);
    ForwardedCount(cfg, s, ls, from, targets, m, params);
    forall j | 0 <= j < |targets|
      ensures IsOneRequest(Inbox(Forwarded(cfg, s, ls, from, |targets|), targets[j]), m, params)
    {
      ForwardedReaches(cfg, s, ls, from, targets, j, m, params);
      assert IsSent(Exec(cfg, s, ls), from + j) && !IsSent(s, from + j);
    }
  }

  /** With a stable peer table, in every run from the moment the hub takes up a
      fan-out with n other peers to the moment all its calls have returned, and
      in which no write fails, exactly n requests are forwarded: one to each
      other open peer, with the dispatched method and params. */
  lemma FanOutForwardsOnce(cfg: Config, s: State, t: nat, interrupted: bool, ls: seq<Label>) returns (targets: seq<nat>)
    requires Enabled(s, RunServer(t, interrupted)) && ServerRoute(s.tasks[t].msg).FanOut?
    requires exists k: nat :: k in s.open && k < |s.owners| && k != s.tasks[t].conn
    requires Runs(cfg, Apply(cfg, s, RunServer(t, interrupted)), ls)
    requires AllCalm(ls, |s.calls|, |Members(|s.owners|, s.open - {s.tasks[t].conn})|)
    requires AllGone(Exec(cfg, Apply(cfg, s, RunServer(t, interrupted)), ls),
                     Handles(|s.calls|, |Members(|s.owners|, s.open - {s.tasks[t].conn})|))
    ensures forall k: nat :: k in targets <==> k in s.open && k < |s.owners| && k != s.tasks[t].conn
    ensures forall i, j :: 0 <= i < j < |targets| ==> targets[i] != targets[j]
    ensures var s1, route := Apply(cfg, s, RunServer(t, interrupted)), ServerRoute(s.tasks[t].msg);
      var sent := Forwarded(cfg, s1, ls, |s.calls|, |targets|);
      && |sent| == |targets|
      && forall j :: 0 <= j < |targets| ==> IsOneRequest(Inbox(sent, targets[j]), route.methodName, route.params)
  {
    var route := ServerRoute(s.tasks[t].msg);
    targets := FanOutTargets(cfg, s, t, interrupted);
    var s1 := Apply(cfg, s, RunServer(t, interrupted));
    NewCallsAsk(s, targets, route.methodName, route.params, s1);
    AllForwarded(cfg, s1, ls, |s.calls|, targets, route.methodName, route.params);
  }

  lemma FanOutTargets(cfg: Config, s: State, t: nat, interrupted: bool) returns (targets: seq<nat>)
    requires Enabled(s, RunServer(t, interrupted)) && ServerRoute(s.tasks[t].msg).FanOut?
    requires exists k: nat :: k in s.open && k < |s.owners| && k != s.tasks[t].conn
    ensures targets == Members(|s.owners|, s.open - {s.tasks[t].conn})
    ensures forall k: nat :: k in targets <==> k in s.open && k < |s.owners| && k != s.tasks[t].conn
    ensures forall i, j :: 0 <= i < j < |targets| ==> targets[i] != targets[j]
    ensures var s1, route := Apply(cfg, s, RunServer(t, interrupted)), ServerRoute(s.tasks[t].msg);
      s1.calls == s.calls + RelayCalls(targets, route.methodName, route.params) && PeersOpen(s1, targets)
  {
    targets := FanOutAsksEveryOtherPeer(cfg, s, t, interrupted);
    StableStepKeepsPeers(cfg, s, RunServer(t, interrupted));
    forall k: nat | k in s.open && k < |s.owners| && k != s.tasks[t].conn ensures k in targets {}
  }
}
