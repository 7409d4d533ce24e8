/** The client's connection life cycle as a transition system
    (pkg/holonrpc/client.go): Connect, ConnectWithReconnect, readLoop and
    onDisconnect, reconnectLoop, disableReconnect, Close and the connection half
    of Invoke. Every region under the state lock is one step; a thread's program
    counter moves between steps wherever the code releases the lock. */
module Lifecycle {
  import opened Wrappers

  // ----- the fields under the state lock -----

  /** Connections and reconnect loops are named by their creation order. `loop`
      stands for the five reconnect fields, which are always set and cleared
      together; `closed` to `done` are the fields of the same names. */
  datatype Core = Core(
    closed: bool,
    ws: Option<nat>,
    rxCtx: Option<nat>,
    cancel: Option<nat>,
    done: Option<nat>,
    loop: Option<nat>)

  const EmptyCore := Core(false, None, None, None, None, None)

  function Install(c: Core, conn: nat): Core {
    c.(ws := Some(conn), rxCtx := Some(conn), cancel := Some(conn), done := Some(conn))
  }

  /** Close keeps rxCtx, as the code does. */
  function Shut(c: Core): Core {
    c.(closed := true, ws := None, cancel := None, done := None, loop := None)
  }

  /** onDisconnect under the lock, for the connection that is still installed. */
  function Drop(c: Core): Core {
    c.(ws := None, rxCtx := None, cancel := None, done := None)
  }

  /** The loop whose wake channel onDisconnect goes on to signal. */
  function WakeTarget(c: Core): Option<nat> {
    if c.closed then None else c.loop
  }

  // ----- threads -----

  datatype Dialer = ByThread(thread: nat) | ByLoop(loop: nat)

  /** A connection's read loop; `Unstarted` until the connection is installed. */
  datatype Reader =
    | Unstarted(dialer: Dialer)
    | Reading
    | Detaching
    | Failing(wake: Option<nat>)
    | Waking(loop: nat)
    | Ended

  datatype Conn = Conn(cancelled: bool, reader: Reader)

  datatype LoopPc = Idle | Checking | LoopDialing | LoopInstalling(conn: nat) | Confirming | Sleeping | Exited

  /** `token` is the content of the capacity-one wake channel. `armed` is a
      history variable: a connection was installed while this loop was the
      client's reconnect loop. */
  datatype Loop = Loop(token: bool, cancelled: bool, pc: LoopPc, armed: bool)

  /** A thread inside Connect (`loop` is None) or ConnectWithReconnect. */
  datatype Thread =
    | Entering(loop: Option<nat>)
    | Dialing(loop: Option<nat>)
    | Installing(conn: nat, loop: Option<nat>)
    | Disabling(loop: Option<nat>)
    | StoppingOwn(own: nat)
    | AwaitingOwn(own: nat)
    | Returned

  datatype Closer =
    | NotClosing
    | Cancelling(cancel: Option<nat>, done: Option<nat>, loop: Option<nat>)
    | StoppingLoop(done: Option<nat>, loop: Option<nat>)
    | AwaitingReader(done: Option<nat>, loop: Option<nat>)
    | AwaitingLoop(loop: Option<nat>)
    | ClearingPending
    | Finished

  /** The client has one pending table for all its connections. A call is in it
      while its slot is `Pending`; `Failed` says that the table was failed and
      UNAVAILABLE is in the call's channel. */
  datatype Slot = Unregistered | Pending | Failed

  /** An Invoke that took `conn` from currentConn. */
  datatype Caller = Caller(conn: nat, slot: Slot, returned: bool)

  datatype State = State(
    core: Core,
    conns: seq<Conn>,
    loops: seq<Loop>,
    threads: seq<Thread>,
    closer: Closer,
    callers: seq<Caller>)

  const Fresh := State(EmptyCore, [], [], [], NotClosing, [])

  datatype Label =
    | CallConnect
    | CallConnectWithReconnect
    | Enter(t: nat)
    | DialFails(t: nat)
    | DialSucceeds(t: nat)
    | InstallByThread(t: nat)
    | Disable(t: nat)
    | StopOwnLoop(t: nat)
    | SeeOwnLoopExit(t: nat)
    | ReadFails(k: nat)
    | Detach(k: nat)
    | FailPending(k: nat)
    | Wake(k: nat)
    | ParentCancels(g: nat)
    | TakeToken(g: nat)
    | LoopSeesCancel(g: nat)
    | Check(g: nat)
    | LoopDialFails(g: nat)
    | LoopDialSucceeds(g: nat)
    | InstallByLoop(g: nat)
    | Confirm(g: nat)
    | TimerFires(g: nat)
    | CallClose
    | CloseStep
    | BeginInvoke
    | RegisterInvoke(i: nat)
    | InvokeSeesClosed(i: nat)
    | InvokeSeesFailure(i: nat)
    | InvokeReturns(i: nat)

  // ----- steps -----

  function SetReader(s: State, k: nat, r: Reader): State
    requires k < |s.conns|
  {
    s.(conns := s.conns[k := s.conns[k].(reader := r)])
  }

  function CancelConn(s: State, k: Option<nat>): State {
    if k.Some? && k.value < |s.conns| then s.(conns := s.conns[k.value := s.conns[k.value].(cancelled := true)]) else s
  }

  function SetThread(s: State, t: nat, pc: Thread): State
    requires t < |s.threads|
  {
    s.(threads := s.threads[t := pc])
  }

  function SetLoop(s: State, g: nat, l: Loop): State
    requires g < |s.loops|
  {
    s.(loops := s.loops[g := l])
  }

  function SetPc(s: State, g: nat, pc: LoopPc): State
    requires g < |s.loops|
  {
    SetLoop(s, g, s.loops[g].(pc := pc))
  }

  function StopLoop(s: State, g: Option<nat>): State {
    if g.Some? && g.value < |s.loops| then SetLoop(s, g.value, s.loops[g.value].(cancelled := true)) else s
  }

  /** failAllPending: whoever is in the table gets a failure. */
  function FailAll(callers: seq<Caller>): seq<Caller> {
    seq(|callers|, i requires 0 <= i < |callers| =>
      if callers[i].slot.Pending? then callers[i].(slot := Slot.Failed) else callers[i])
  }

  predicate Waits(s: State, i: nat) {
    i < |s.callers| && !s.callers[i].returned
  }

  /** Installs a dialled connection and starts its read loop. */
  function DoInstall(s: State, k: nat): State
    requires k < |s.conns|
  {
    var s1 := SetReader(s, k, Reading).(core := Install(s.core, k));
    var g := s.core.loop;
    if g.Some? && g.value < |s.loops| then SetLoop(s1, g.value, s1.loops[g.value].(armed := true)) else s1
  }

  /** Close waits for the read loop and for the reconnect loop to end. */
  predicate CloserEnabled(s: State) {
    match s.closer
    case NotClosing => false
    case Cancelling(_, _, _) => true
    case StoppingLoop(_, _) => true
    case AwaitingReader(done, _) => done.Some? ==> done.value < |s.conns| && s.conns[done.value].reader.Ended?
    case AwaitingLoop(g) => g.Some? ==> g.value < |s.loops| && s.loops[g.value].pc.Exited?
    case ClearingPending => true
    case Finished => false
  }

  predicate Enabled(s: State, l: Label) {
    match l
    case CallConnect => true
    case CallConnectWithReconnect => true
    case Enter(t) => t < |s.threads| && s.threads[t].Entering?
    case DialFails(t) => t < |s.threads| && s.threads[t].Dialing?
    case DialSucceeds(t) => t < |s.threads| && s.threads[t].Dialing?
    case InstallByThread(t) =>
      t < |s.threads| && s.threads[t].Installing? && s.threads[t].conn < |s.conns|
    case Disable(t) => t < |s.threads| && s.threads[t].Disabling?
    case StopOwnLoop(t) => t < |s.threads| && s.threads[t].StoppingOwn?
    case SeeOwnLoopExit(t) =>
      t < |s.threads| && s.threads[t].AwaitingOwn? && s.threads[t].own < |s.loops| && s.loops[s.threads[t].own].pc.Exited?
    case ReadFails(k) => k < |s.conns| && s.conns[k].reader.Reading?
    case Detach(k) => k < |s.conns| && s.conns[k].reader.Detaching?
    case FailPending(k) => k < |s.conns| && s.conns[k].reader.Failing?
    case Wake(k) => k < |s.conns| && s.conns[k].reader.Waking?
    case ParentCancels(g) => g < |s.loops|
    case TakeToken(g) => g < |s.loops| && s.loops[g].pc.Idle? && s.loops[g].token
    case LoopSeesCancel(g) => g < |s.loops| && s.loops[g].cancelled && (s.loops[g].pc.Idle? || s.loops[g].pc.Sleeping?)
    case Check(g) => g < |s.loops| && s.loops[g].pc.Checking?
    case LoopDialFails(g) => g < |s.loops| && s.loops[g].pc.LoopDialing?
    case LoopDialSucceeds(g) => g < |s.loops| && s.loops[g].pc.LoopDialing?
    case InstallByLoop(g) =>
      g < |s.loops| && s.loops[g].pc.LoopInstalling? && s.loops[g].pc.conn < |s.conns|
    case Confirm(g) => g < |s.loops| && s.loops[g].pc.Confirming?
    case TimerFires(g) => g < |s.loops| && s.loops[g].pc.Sleeping?
    case CallClose => true
    case CloseStep => CloserEnabled(s)
    case BeginInvoke => !s.core.closed && s.core.ws.Some? && s.core.cancel.Some? && s.core.rxCtx.Some?
    case RegisterInvoke(i) => Waits(s, i) && s.callers[i].slot.Unregistered?
    case InvokeSeesClosed(i) =>
      Waits(s, i) && s.callers[i].conn < |s.conns| && s.conns[s.callers[i].conn].cancelled
    case InvokeSeesFailure(i) => Waits(s, i) && s.callers[i].slot.Failed?
    case InvokeReturns(i) => Waits(s, i)
  }

  /** Where Connect goes when it fails: ConnectWithReconnect takes its loop down. */
  function Failed(loop: Option<nat>): Thread {
    if loop.Some? then Disabling(loop) else Returned
  }

  function Apply(s: State, l: Label): State
    requires Enabled(s, l)
  {
    match l
    case CallConnect => s.(threads := s.threads + [Entering(None)])
    case CallConnectWithReconnect =>
      if s.core.closed || s.core.ws.Some? || s.core.loop.Some? then s
      else s.(core := s.core.(loop := Some(|s.loops|)),
              loops := s.loops + [Loop(false, false, Idle, false)],
              threads := s.threads + [Entering(Some(|s.loops|))])
    case Enter(t) =>
      var g := s.threads[t].loop;
      SetThread(s, t, if s.core.closed || s.core.ws.Some? then Failed(g) else Dialing(g))
    case DialFails(t) => SetThread(s, t, Failed(s.threads[t].loop))
    case DialSucceeds(t) =>
      SetThread(s.(conns := s.conns + [Conn(false, Unstarted(ByThread(t)))]), t,
                Installing(|s.conns|, s.threads[t].loop))
    case InstallByThread(t) =>
      var k := s.threads[t].conn;
      if s.core.closed then SetThread(CancelConn(s, Some(k)), t, Failed(s.threads[t].loop))
      else SetThread(DoInstall(s, k), t, Returned)
    case Disable(t) =>
      if s.threads[t].loop.None? || s.core.loop != s.threads[t].loop then SetThread(s, t, Returned)
      else SetThread(s.(core := s.core.(loop := None)), t, StoppingOwn(s.threads[t].loop.value))
    case StopOwnLoop(t) =>
      SetThread(StopLoop(s, Some(s.threads[t].own)), t, AwaitingOwn(s.threads[t].own))
    case SeeOwnLoopExit(t) => SetThread(s, t, Returned)
    case ReadFails(k) => SetReader(s, k, Detaching)
    case Detach(k) =>
      if s.core.ws == Some(k) then
        SetReader(CancelConn(s, s.core.cancel), k, Failing(WakeTarget(s.core))).(core := Drop(s.core))
      else SetReader(s, k, Ended)
    case FailPending(k) =>
      var w := s.conns[k].reader.wake;
      SetReader(s, k, if w.Some? then Waking(w.value) else Ended).(callers := FailAll(s.callers))
    case Wake(k) =>
      var g := s.conns[k].reader.loop;
      var s1 := SetReader(s, k, Ended);
      if g < |s.loops| then SetLoop(s1, g, s1.loops[g].(token := true)) else s1
    case ParentCancels(g) => StopLoop(s, Some(g))
    case TakeToken(g) => SetLoop(s, g, s.loops[g].(token := false, pc := Checking))
    case LoopSeesCancel(g) => SetPc(s, g, Exited)
    case Check(g) => SetPc(s, g, if s.core.closed then Exited else if s.core.ws.Some? then Idle else LoopDialing)
    case LoopDialFails(g) => SetPc(s, g, Sleeping)
    case LoopDialSucceeds(g) =>
      SetPc(s.(conns := s.conns + [Conn(false, Unstarted(ByLoop(g)))]), g, LoopInstalling(|s.conns|))
    case InstallByLoop(g) =>
      var k := s.loops[g].pc.conn;
      if s.core.closed then SetPc(CancelConn(s, Some(k)), g, Exited)
      else if s.core.ws.Some? then SetPc(CancelConn(s, Some(k)), g, Confirming)
      else SetPc(DoInstall(s, k), g, Confirming)
    case Confirm(g) => SetPc(s, g, if !s.core.closed && s.core.ws.Some? then Idle else Sleeping)
    case TimerFires(g) => SetPc(s, g, Checking)
    case CallClose =>
      if s.core.closed then s
      else s.(core := Shut(s.core), closer := Cancelling(s.core.cancel, s.core.done, s.core.loop))
    case CloseStep =>
      (match s.closer
       case Cancelling(cancel, done, g) => CancelConn(s, cancel).(closer := StoppingLoop(done, g))
       case StoppingLoop(done, g) => StopLoop(s, g).(closer := AwaitingReader(done, g))
       case AwaitingReader(_, g) => s.(closer := AwaitingLoop(g))
       case AwaitingLoop(_) => s.(closer := ClearingPending)
       case ClearingPending => s.(closer := Finished, callers := FailAll(s.callers))
       case _ => s)
    case BeginInvoke => s.(callers := s.callers + [Caller(s.core.ws.value, Unregistered, false)])
    case RegisterInvoke(i) => s.(callers := s.callers[i := s.callers[i].(slot := Slot.Pending)])
    case InvokeSeesClosed(i) => s.(callers := s.callers[i := s.callers[i].(returned := true)])
    case InvokeSeesFailure(i) => s.(callers := s.callers[i := s.callers[i].(returned := true)])
    case InvokeReturns(i) => s.(callers := s.callers[i := s.callers[i].(returned := true)])
  }

  // ----- runs -----

  predicate Runs(s: State, ls: seq<Label>)
    decreases |ls|
  {
    ls == [] || (Enabled(s, ls[0]) && Runs(Apply(s, ls[0]), ls[1..]))
  }

  function Exec(s: State, ls: seq<Label>): State
    requires Runs(s, ls)
    decreases |ls|
  {
    if ls == [] then s else Exec(Apply(s, ls[0]), ls[1..])
  }

  ghost predicate Reachable(s: State) {
    exists ls :: Runs(Fresh, ls) && Exec(Fresh, ls) == s
  }

  // ----- what every run keeps -----

  /** Fields and threads agree; a closed client has nothing installed. */
  ghost predicate Consistent(s: State) {
    && (s.core.closed <==> !s.closer.NotClosing?)
    && (s.core.closed ==> s.core.ws.None? && s.core.loop.None?)
    && (s.core.ws.Some? ==>
         && s.core.cancel == s.core.done == s.core.rxCtx == s.core.ws
         && s.core.ws.value < |s.conns|
         && !s.conns[s.core.ws.value].cancelled
         && (s.conns[s.core.ws.value].reader.Reading? || s.conns[s.core.ws.value].reader.Detaching?))
    && (s.core.ws.None? ==> s.core.cancel.None? && s.core.done.None?)
    && (s.core.ws.None? && !s.core.closed ==> s.core.rxCtx.None?)
    && (s.core.loop.Some? ==> s.core.loop.value < |s.loops|)
  }

  /** A dialled connection waits, uncancelled, for the dialer that made it. */
  ghost predicate ThreadDialsOwned(s: State) {
    forall t :: 0 <= t < |s.threads| && s.threads[t].Installing? ==>
      && s.threads[t].conn < |s.conns|
      && s.conns[s.threads[t].conn] == Conn(false, Unstarted(ByThread(t)))
  }

  ghost predicate LoopDialsOwned(s: State) {
    forall g :: 0 <= g < |s.loops| && s.loops[g].pc.LoopInstalling? ==>
      && s.loops[g].pc.conn < |s.conns|
      && s.conns[s.loops[g].pc.conn] == Conn(false, Unstarted(ByLoop(g)))
  }

  /** The connection that a Close is about to cancel was once installed. */
  ghost predicate ClosingStarted(s: State) {
    s.closer.Cancelling? && s.closer.cancel.Some? ==>
      && s.closer.cancel.value < |s.conns|
      && !s.conns[s.closer.cancel.value].reader.Unstarted?
  }

  /** A loop ends only when it is told to or the client is closed. */
  ghost predicate ExitsHaveCause(s: State) {
    forall g :: 0 <= g < |s.loops| && s.loops[g].pc.Exited? ==> s.loops[g].cancelled || s.core.closed
  }

  /** Nobody waits for a loop that was not told to end. */
  ghost predicate CloseStopsLoop(s: State) {
    ClosingLoop(s.closer).Some? ==>
      && ClosingLoop(s.closer).value < |s.loops|
      && (s.closer.AwaitingReader? || s.closer.AwaitingLoop? ==> s.loops[ClosingLoop(s.closer).value].cancelled)
  }

  ghost predicate OwnersStopLoops(s: State) {
    && (forall t :: 0 <= t < |s.threads| && s.threads[t].StoppingOwn? ==> s.threads[t].own < |s.loops|)
    && (forall t :: 0 <= t < |s.threads| && s.threads[t].AwaitingOwn? ==>
          s.threads[t].own < |s.loops| && s.loops[s.threads[t].own].cancelled)
  }

  /** The loop that a Close still has to stop or wait for. */
  function ClosingLoop(c: Closer): Option<nat> {
    match c
    case Cancelling(_, _, g) => g
    case StoppingLoop(_, g) => g
    case AwaitingReader(_, g) => g
    case AwaitingLoop(g) => g
    case _ => None
  }

  predicate InDialPhase(pc: LoopPc) {
    pc.Checking? || pc.LoopDialing? || pc.LoopInstalling? || pc.Confirming? || pc.Sleeping?
  }

  /** An onDisconnect that has yet to signal loop g. */
  predicate AboutToWake(c: Conn, g: nat) {
    c.reader == Failing(Some(g)) || c.reader == Waking(g)
  }

  ghost predicate WakePromised(s: State, g: nat)
    requires g < |s.loops|
  {
    || s.loops[g].token
    || InDialPhase(s.loops[g].pc)
    || exists k :: 0 <= k < |s.conns| && AboutToWake(s.conns[k], g)
  }

  /** The loop has work to do: reconnect is on, its context is live, a first
      connection was installed, and now there is none. */
  predicate MustReconnect(s: State, g: nat) {
    && s.core.loop == Some(g) && g < |s.loops|
    && s.loops[g].armed && !s.loops[g].cancelled
    && !s.core.closed && s.core.ws.None?
  }

  ghost predicate NoLostWake(s: State) {
    forall g :: 0 <= g < |s.loops| && MustReconnect(s, g) ==> WakePromised(s, g)
  }

  /** The facts each of which one step keeps, given all of them. */
  ghost predicate Base(s: State) {
    && Consistent(s) && ThreadDialsOwned(s) && LoopDialsOwned(s) && ClosingStarted(s)
    && ExitsHaveCause(s) && CloseStopsLoop(s) && OwnersStopLoops(s)
  }

  ghost predicate Inv(s: State) {
    Base(s) && NoLostWake(s)
  }

  /** The steps of threads inside Connect and ConnectWithReconnect. */
  predicate ThreadStep(l: Label) {
    match l
    case CallConnect => true
    case CallConnectWithReconnect => true
    case Enter(_) => true
    case DialFails(_) => true
    case DialSucceeds(_) => true
    case InstallByThread(_) => true
    case Disable(_) => true
    case StopOwnLoop(_) => true
    case SeeOwnLoopExit(_) => true
    case _ => false
  }

  /** The steps of reconnect loops. */
  predicate OfLoop(l: Label) {
    match l
    case TakeToken(_) => true
    case LoopSeesCancel(_) => true
    case Check(_) => true
    case LoopDialFails(_) => true
    case LoopDialSucceeds(_) => true
    case InstallByLoop(_) => true
    case Confirm(_) => true
    case TimerFires(_) => true
    case _ => false
  }

  lemma StepKeepsConsistent(s: State, l: Label)
    requires Consistent(s) && ThreadDialsOwned(s) && LoopDialsOwned(s) && ClosingStarted(s) && Enabled(s, l)
    ensures Consistent(Apply(s, l))
  {
    if ThreadStep(l) {
      ThreadStepKeepsConsistent(s, l);
    } else if OfLoop(l) {
      LoopStepKeepsConsistent(s, l);
    } else {
      OtherStepKeepsConsistent(s, l);
    }
  }

  lemma ThreadStepKeepsConsistent(s: State, l: Label)
    requires Consistent(s) && ThreadDialsOwned(s) && LoopDialsOwned(s) && ClosingStarted(s) && Enabled(s, l) && ThreadStep(l)
    ensures Consistent(Apply(s, l))
  {
  }

  lemma LoopStepKeepsConsistent(s: State, l: Label)
    requires Consistent(s) && ThreadDialsOwned(s) && LoopDialsOwned(s) && ClosingStarted(s) && Enabled(s, l) && OfLoop(l)
    ensures Consistent(Apply(s, l))
  {
  }

  lemma OtherStepKeepsConsistent(s: State, l: Label)
    requires Consistent(s) && ThreadDialsOwned(s) && LoopDialsOwned(s) && ClosingStarted(s) && Enabled(s, l) && !ThreadStep(l) && !OfLoop(l)
    ensures Consistent(Apply(s, l))
  {
  }

  lemma StepKeepsClosingStarted(s: State, l: Label)
    requires Consistent(s) && ClosingStarted(s) && Enabled(s, l)
    ensures ClosingStarted(Apply(s, l))
  {
    if ThreadStep(l) {
      ThreadStepKeepsClosingStarted(s, l);
    } else {
      OtherStepKeepsClosingStarted(s, l);
    }
  }

  lemma ThreadStepKeepsClosingStarted(s: State, l: Label)
    requires Consistent(s) && ClosingStarted(s) && Enabled(s, l) && ThreadStep(l)
    ensures ClosingStarted(Apply(s, l))
  {
  }

  lemma OtherStepKeepsClosingStarted(s: State, l: Label)
    requires Consistent(s) && ClosingStarted(s) && Enabled(s, l) && !ThreadStep(l)
    ensures ClosingStarted(Apply(s, l))
  {
  }

  lemma StepKeepsThreadDials(s: State, l: Label)
    requires Consistent(s) && ThreadDialsOwned(s) && LoopDialsOwned(s) && ClosingStarted(s) && Enabled(s, l)
    ensures ThreadDialsOwned(Apply(s, l))
  {
    if ThreadStep(l) {
      ThreadStepKeepsThreadDials(s, l);
    } else if OfLoop(l) {
      LoopStepKeepsThreadDials(s, l);
    } else {
      OtherStepKeepsThreadDials(s, l);
    }
  }

  lemma ThreadStepKeepsThreadDials(s: State, l: Label)
    requires Consistent(s) && ThreadDialsOwned(s) && LoopDialsOwned(s) && ClosingStarted(s) && Enabled(s, l) && ThreadStep(l)
    ensures ThreadDialsOwned(Apply(s, l))
  {
  }

  lemma LoopStepKeepsThreadDials(s: State, l: Label)
    requires Consistent(s) && ThreadDialsOwned(s) && LoopDialsOwned(s) && ClosingStarted(s) && Enabled(s, l) && OfLoop(l)
    ensures ThreadDialsOwned(Apply(s, l))
  {
  }

  lemma OtherStepKeepsThreadDials(s: State, l: Label)
    requires Consistent(s) && ThreadDialsOwned(s) && LoopDialsOwned(s) && ClosingStarted(s) && Enabled(s, l) && !ThreadStep(l) && !OfLoop(l)
    ensures ThreadDialsOwned(Apply(s, l))
  {
  }

  lemma StepKeepsLoopDials(s: State, l: Label)
    requires Consistent(s) && ThreadDialsOwned(s) && LoopDialsOwned(s) && ClosingStarted(s) && Enabled(s, l)
    ensures LoopDialsOwned(Apply(s, l))
  {
    if ThreadStep(l) {
      ThreadStepKeepsLoopDials(s, l);
    } else if OfLoop(l) {
      LoopStepKeepsLoopDials(s, l);
    } else {
      OtherStepKeepsLoopDials(s, l);
    }
  }

  lemma ThreadStepKeepsLoopDials(s: State, l: Label)
    requires Consistent(s) && ThreadDialsOwned(s) && LoopDialsOwned(s) && ClosingStarted(s) && Enabled(s, l) && ThreadStep(l)
    ensures LoopDialsOwned(Apply(s, l))
  {
  }

  lemma LoopStepKeepsLoopDials(s: State, l: Label)
    requires Consistent(s) && ThreadDialsOwned(s) && LoopDialsOwned(s) && ClosingStarted(s) && Enabled(s, l) && OfLoop(l)
    ensures LoopDialsOwned(Apply(s, l))
  {
  }

  lemma OtherStepKeepsLoopDials(s: State, l: Label)
    requires Consistent(s) && ThreadDialsOwned(s) && LoopDialsOwned(s) && ClosingStarted(s) && Enabled(s, l) && !ThreadStep(l) && !OfLoop(l)
    ensures LoopDialsOwned(Apply(s, l))
  {
  }

  lemma StepKeepsExits(s: State, l: Label)
    requires ExitsHaveCause(s) && Enabled(s, l)
    ensures ExitsHaveCause(Apply(s, l))
  {
  }

  lemma StepKeepsCloseStops(s: State, l: Label)
    requires Consistent(s) && CloseStopsLoop(s) && Enabled(s, l)
    ensures CloseStopsLoop(Apply(s, l))
  {
    if ThreadStep(l) {
      ThreadStepKeepsCloseStops(s, l);
    } else {
      OtherStepKeepsCloseStops(s, l);
    }
  }

  lemma ThreadStepKeepsCloseStops(s: State, l: Label)
    requires Consistent(s) && CloseStopsLoop(s) && Enabled(s, l) && ThreadStep(l)
    ensures CloseStopsLoop(Apply(s, l))
  {
  }

  lemma OtherStepKeepsCloseStops(s: State, l: Label)
    requires Consistent(s) && CloseStopsLoop(s) && Enabled(s, l) && !ThreadStep(l)
    ensures CloseStopsLoop(Apply(s, l))
  {
  }

  lemma StepKeepsOwners(s: State, l: Label)
    requires Consistent(s) && OwnersStopLoops(s) && Enabled(s, l)
    ensures OwnersStopLoops(Apply(s, l))
  {
    if ThreadStep(l) {
      ThreadStepKeepsOwners(s, l);
    } else if OfLoop(l) {
      LoopStepKeepsOwners(s, l);
    } else {
      OtherStepKeepsOwners(s, l);
    }
  }

  lemma ThreadStepKeepsOwners(s: State, l: Label)
    requires Consistent(s) && OwnersStopLoops(s) && Enabled(s, l) && ThreadStep(l)
    ensures OwnersStopLoops(Apply(s, l))
  {
  }

  lemma LoopStepKeepsOwners(s: State, l: Label)
    requires OwnersStopLoops(s) && Enabled(s, l) && OfLoop(l)
    ensures OwnersStopLoops(Apply(s, l))
  {
  }

  lemma OtherStepKeepsOwners(s: State, l: Label)
    requires OwnersStopLoops(s) && Enabled(s, l) && !ThreadStep(l) && !OfLoop(l)
    ensures OwnersStopLoops(Apply(s, l))
  {
  }

  /** A promise stays until it is kept. */
  lemma StepKeepsPromise(s: State, l: Label, g: nat)
    requires Enabled(s, l) && g < |s.loops| && MustReconnect(s, g) && WakePromised(s, g)
    requires g < |Apply(s, l).loops| && MustReconnect(Apply(s, l), g)
    ensures WakePromised(Apply(s, l), g)
  {
    var s' := Apply(s, l);
    if k :| 0 <= k < |s.conns| && AboutToWake(s.conns[k], g) {
      assert k < |s'.conns|;
      assert AboutToWake(s'.conns[k], g) || s'.loops[g].token;
    }
  }

  lemma StepKeepsNoLostWake(s: State, l: Label)
    requires Inv(s) && Enabled(s, l)
    ensures NoLostWake(Apply(s, l))
  {
    var s' := Apply(s, l);
    forall g | 0 <= g < |s'.loops| && MustReconnect(s', g)
      ensures WakePromised(s', g)
    {
      if g < |s.loops| && MustReconnect(s, g) {
        StepKeepsPromise(s, l, g);
      } else if l.Detach? {
        assert AboutToWake(s'.conns[l.k], g);
      }
    }
  }

  lemma StepKeepsInv(s: State, l: Label)
    requires Inv(s) && Enabled(s, l)
    ensures Inv(Apply(s, l))
  {
    StepKeepsConsistent(s, l);
    StepKeepsClosingStarted(s, l);
    StepKeepsThreadDials(s, l);
    StepKeepsLoopDials(s, l);
    StepKeepsExits(s, l);
    StepKeepsCloseStops(s, l);
    StepKeepsOwners(s, l);
    StepKeepsNoLostWake(s, l);
  }

  lemma {:induction false} RunKeepsInv(s: State, ls: seq<Label>)
    requires Inv(s) && Runs(s, ls)
    ensures Inv(Exec(s, ls))
    decreases |ls|
  {
    if ls != [] {
      StepKeepsInv(s, ls[0]);
      RunKeepsInv(Apply(s, ls[0]), ls[1..]);
    }
  }

  lemma ReachableInv(s: State)
    requires Reachable(s)
    ensures Inv(s)
  {
    var ls :| Runs(Fresh, ls) && Exec(Fresh, ls) == s;
    RunKeepsInv(Fresh, ls);
  }

  // ----- no lost wake-up -----

  /** Steps that bring loop g's next dial attempt, or its success, closer. */
  predicate Advances(s: State, l: Label, g: nat) {
    match l
    case TakeToken(h) => h == g
    case Check(h) => h == g
    case LoopDialFails(h) => h == g
    case LoopDialSucceeds(h) => h == g
    case InstallByLoop(h) => h == g
    case Confirm(h) => h == g
    case TimerFires(h) => h == g
    case FailPending(k) => k < |s.conns| && AboutToWake(s.conns[k], g)
    case Wake(k) => k < |s.conns| && AboutToWake(s.conns[k], g)
    case _ => false
  }

  lemma PromiseAdvances(s: State, g: nat) returns (l: Label)
    requires g < |s.loops| && WakePromised(s, g) && !s.loops[g].pc.Exited? && LoopDialsOwned(s)
    ensures Enabled(s, l) && Advances(s, l, g)
  {
    match s.loops[g].pc {
      case Idle =>
        if s.loops[g].token {
          l := TakeToken(g);
        } else {
          var k :| 0 <= k < |s.conns| && AboutToWake(s.conns[k], g);
          l := if s.conns[k].reader.Failing? then FailPending(k) else Wake(k);
        }
      case Checking => l := Check(g);
      case LoopDialing => l := LoopDialFails(g);
      case LoopInstalling(_) => l := InstallByLoop(g);
      case Confirming => l := Confirm(g);
      case Sleeping => l := TimerFires(g);
    }
  }

  /** No interleaving loses a wake-up: whenever the client ought to reconnect,
      the wake-up is in the channel, promised by an onDisconnect, or already
      acted upon; the loop is still there, and a step towards the next dial is
      enabled. Calls of Connect and Close may overlap in any way. */
  lemma NoLostWakeUp(s: State, g: nat)
    requires Reachable(s) && MustReconnect(s, g)
    ensures WakePromised(s, g) && !s.loops[g].pc.Exited?
    ensures exists l :: Enabled(s, l) && Advances(s, l, g)
  {
    ReachableInv(s);
    var l := PromiseAdvances(s, g);
  }

  // ----- the steps are the client's own regions -----

  /** Each step changes the fields under the lock as the method of the client
      for that region does (see Client.dfy), and the others leave them alone. */
  lemma StepsAreRegions(s: State, l: Label)
    requires Enabled(s, l)
    ensures var c, c' := s.core, Apply(s, l).core;
      c' == match l
            case CallConnectWithReconnect =>
              if !c.closed && c.ws.None? && c.loop.None? then c.(loop := Some(|s.loops|)) else c
            case InstallByThread(t) => if !c.closed then Install(c, s.threads[t].conn) else c
            case InstallByLoop(g) => if !c.closed && c.ws.None? then Install(c, s.loops[g].pc.conn) else c
            case Detach(k) => if c.ws == Some(k) then Drop(c) else c
            case Disable(t) => if c.loop == s.threads[t].loop then c.(loop := None) else c
            case CallClose => if !c.closed then Shut(c) else c
            case _ => c
    ensures l.Enter? ==> (Apply(s, l).threads[l.t].Dialing? <==> !s.core.closed && s.core.ws.None?)
    ensures l.Check? ==> (Apply(s, l).loops[l.g].pc.LoopDialing? <==> !s.core.closed && s.core.ws.None?)
  {
  }

  // ----- a failed first dial takes its loop down -----

  /** The thread is inside the ConnectWithReconnect that started loop g. */
  predicate Starts(th: Thread, g: nat) {
    (th.Entering? || th.Dialing? || th.Installing? || th.Disabling?) && th.loop == Some(g)
  }

  /** The client's loop has seen a connection installed, or is still in the hands
      of the call that started it. */
  ghost predicate LoopIsAccountedFor(s: State) {
    s.core.loop.Some? && s.core.loop.value < |s.loops| && !s.loops[s.core.loop.value].armed ==>
      exists t :: 0 <= t < |s.threads| && Starts(s.threads[t], s.core.loop.value)
  }

  lemma ThreadStepKeepsAccount(s: State, l: Label)
    requires Consistent(s) && LoopIsAccountedFor(s) && Enabled(s, l) && ThreadStep(l)
    ensures LoopIsAccountedFor(Apply(s, l))
  {
    var s' := Apply(s, l);
    if s'.core.loop.Some? && s'.core.loop.value < |s'.loops| && !s'.loops[s'.core.loop.value].armed {
      var g := s'.core.loop.value;
      if s.core.loop == Some(g) {
        var t :| 0 <= t < |s.threads| && Starts(s.threads[t], g);
        assert Starts(s'.threads[t], g);
      } else {
        assert Starts(s'.threads[|s.threads|], g);
      }
    }
  }

  lemma OtherStepKeepsAccount(s: State, l: Label)
    requires Consistent(s) && LoopIsAccountedFor(s) && Enabled(s, l) && !ThreadStep(l)
    ensures LoopIsAccountedFor(Apply(s, l))
  {
    var s' := Apply(s, l);
    assert s'.threads == s.threads;
  }

  lemma {:induction false} AccountRun(s: State, ls: seq<Label>)
    requires Inv(s) && LoopIsAccountedFor(s) && Runs(s, ls)
    ensures LoopIsAccountedFor(Exec(s, ls))
    decreases |ls|
  {
    if ls != [] {
      StepKeepsInv(s, ls[0]);
      if ThreadStep(ls[0]) {
        ThreadStepKeepsAccount(s, ls[0]);
      } else {
        OtherStepKeepsAccount(s, ls[0]);
      }
      AccountRun(Apply(s, ls[0]), ls[1..]);
    }
  }

  /** Once the ConnectWithReconnect that started it has returned, a loop is the
      client's reconnect loop only if a connection was installed meanwhile: a
      first dial that fails leaves no loop behind. */
  lemma FailedStartLeavesNoLoop(s: State, g: nat)
    requires Reachable(s) && s.core.loop == Some(g)
    requires forall t :: 0 <= t < |s.threads| ==> !Starts(s.threads[t], g)
    ensures g < |s.loops| && s.loops[g].armed
  {
    ReachableInv(s);
    var ls :| Runs(Fresh, ls) && Exec(Fresh, ls) == s;
    AccountRun(Fresh, ls);
  }

  // ----- closed is absorbing -----

  lemma {:induction false} ClosedStaysClosed(s: State, ls: seq<Label>)
    requires Inv(s) && s.core.closed && Runs(s, ls)
    ensures Exec(s, ls).core.closed && Exec(s, ls).core.ws.None?
    decreases |ls|
  {
    if ls != [] {
      StepKeepsInv(s, ls[0]);
      ClosedStaysClosed(Apply(s, ls[0]), ls[1..]);
    }
  }

  /** After Close was called, in whatever state and however the run goes on, the
      client stays closed, nothing is ever installed, and no call gets a
      connection. */
  lemma ClosedIsAbsorbing(s: State, after: seq<Label>)
    requires Reachable(s) && Runs(Apply(s, CallClose), after)
    ensures var s' := Exec(Apply(s, CallClose), after);
      s'.core.closed && s'.core.ws.None? && !Enabled(s', BeginInvoke)
  {
    ReachableInv(s);
    StepKeepsInv(s, CallClose);
    ClosedStaysClosed(Apply(s, CallClose), after);
  }

  // ----- whose disconnect ends what -----

  /** What the read loop of connection k and its onDisconnect do. */
  predicate ReaderStep(l: Label, k: nat) {
    l == ReadFails(k) || l == Detach(k) || l == FailPending(k) || l == Wake(k)
  }

  /** However late it comes, no step of one connection's read loop and
      onDisconnect touches another connection, its context or its read loop; and
      while the other one is installed, all fields under the lock stay. */
  lemma LateReaderIsHarmless(s: State, l: Label, j: nat, k: nat)
    requires Reachable(s) && Enabled(s, l) && ReaderStep(l, k) && j != k && j < |s.conns|
    ensures Apply(s, l).conns[j] == s.conns[j]
    ensures s.core.ws == Some(j) ==> Apply(s, l).core == s.core
  {
    ReachableInv(s);
  }

  /** An installed connection is taken out of the client by exactly three steps:
      its own onDisconnect, Close, and a Connect that installs over it. The first
      is also the only one that cancels it on the spot. */
  lemma InstalledEndsOnlyBy(s: State, l: Label, j: nat)
    requires Reachable(s) && Enabled(s, l) && s.core.ws == Some(j)
    ensures Apply(s, l).core.ws != Some(j) <==> l == Detach(j) || l.CallClose? || InstallsOver(s, l)
    ensures j < |Apply(s, l).conns| && (Apply(s, l).conns[j].cancelled <==> l == Detach(j))
  {
    ReachableInv(s);
    if ThreadStep(l) {
      ThreadStepKeepsInstalled(s, l, j);
    } else {
      OtherStepEndsInstalled(s, l, j);
    }
  }

  lemma ThreadStepKeepsInstalled(s: State, l: Label, j: nat)
    requires Consistent(s) && ThreadDialsOwned(s) && Enabled(s, l) && ThreadStep(l) && s.core.ws == Some(j)
    ensures Apply(s, l).core.ws != Some(j) <==> InstallsOver(s, l)
    ensures j < |Apply(s, l).conns| && !Apply(s, l).conns[j].cancelled
  {
  }

  lemma OtherStepEndsInstalled(s: State, l: Label, j: nat)
    requires Consistent(s) && LoopDialsOwned(s) && Enabled(s, l) && !ThreadStep(l) && s.core.ws == Some(j)
    ensures Apply(s, l).core.ws != Some(j) <==> l == Detach(j) || l.CallClose?
    ensures j < |Apply(s, l).conns| && (Apply(s, l).conns[j].cancelled <==> l == Detach(j))
  {
  }

  /** A stale token, left by the onDisconnect of an earlier connection, costs the
      loop one look: with a connection installed it goes back to waiting. */
  lemma StaleTokenIsHarmless(s: State, g: nat)
    requires Reachable(s) && Enabled(s, TakeToken(g)) && s.core.ws.Some?
    ensures Runs(s, [TakeToken(g), Check(g)])
    ensures Exec(s, [TakeToken(g), Check(g)]) == SetLoop(s, g, s.loops[g].(token := false))
  {
    ReachableInv(s);
    var s1 := Apply(s, TakeToken(g));
    var s2 := Apply(s1, Check(g));
    assert s2 == SetLoop(s, g, s.loops[g].(token := false));
    assert [Check(g)][1..] == [] && Runs(s2, []);
    assert Runs(s1, [Check(g)]) && Exec(s1, [Check(g)]) == s2;
    assert [TakeToken(g), Check(g)][1..] == [Check(g)];
  }

  // ----- one connection at a time -----

  /** A Close that has taken connection k and will cancel it next. */
  predicate HeldByClose(s: State, k: nat) {
    s.closer.Cancelling? && s.closer.cancel == Some(k)
  }

  /** Every connection that was ever installed is cancelled, installed, or held
      by a Close that is about to cancel it. */
  ghost predicate SingleConnection(s: State) {
    forall k :: 0 <= k < |s.conns| && !s.conns[k].reader.Unstarted? && !s.conns[k].cancelled ==>
      s.core.ws == Some(k) || HeldByClose(s, k)
  }

  /** The step that Connect takes without looking at `ws` again. */
  predicate InstallsOver(s: State, l: Label) {
    l.InstallByThread? && !s.core.closed && s.core.ws.Some?
  }

  /** Exactly one step can leave a live connection behind: Connect's
      installation when another connection is already there. */
  lemma OnlyConnectAbandons(s: State, l: Label)
    requires Inv(s) && SingleConnection(s) && Enabled(s, l)
    ensures SingleConnection(Apply(s, l)) <==> !InstallsOver(s, l)
  {
    var s' := Apply(s, l);
    if InstallsOver(s, l) {
      var k := s.core.ws.value;
      assert !s'.conns[k].reader.Unstarted? && !s'.conns[k].cancelled;
    } else if ThreadStep(l) {
      ThreadStepKeepsSingle(s, l);
    } else {
      OtherStepKeepsSingle(s, l);
    }
  }

  lemma ThreadStepKeepsSingle(s: State, l: Label)
    requires Inv(s) && SingleConnection(s) && Enabled(s, l) && ThreadStep(l) && !InstallsOver(s, l)
    ensures SingleConnection(Apply(s, l))
  {
  }

  lemma OtherStepKeepsSingle(s: State, l: Label)
    requires Inv(s) && SingleConnection(s) && Enabled(s, l) && !ThreadStep(l)
    ensures SingleConnection(Apply(s, l))
  {
  }

  predicate Dials(s: State, d: Dialer) {
    match d
    case ByThread(t) => t < |s.threads| && (s.threads[t].Dialing? || s.threads[t].Installing?)
    case ByLoop(g) => g < |s.loops| && (s.loops[g].pc.LoopDialing? || s.loops[g].pc.LoopInstalling?)
  }

  ghost predicate DialInProgress(s: State) {
    exists d :: Dials(s, d)
  }

  /** The steps with which a dial begins. */
  predicate BeginsDial(s: State, l: Label)
    requires Enabled(s, l)
  {
    || (l.Enter? && Apply(s, l).threads[l.t].Dialing?)
    || (l.Check? && Apply(s, l).loops[l.g].pc.LoopDialing?)
  }

  /** A run in which no dial begins while another one is in progress. */
  ghost predicate DialsDisjoint(s: State, ls: seq<Label>)
    requires Runs(s, ls)
    decreases |ls|
  {
    ls == [] || ((BeginsDial(s, ls[0]) ==> !DialInProgress(s)) && DialsDisjoint(Apply(s, ls[0]), ls[1..]))
  }

  /** At most one dial, and only while nothing is installed. */
  ghost predicate OneDial(s: State) {
    && (forall d, e :: Dials(s, d) && Dials(s, e) ==> d == e)
    && (DialInProgress(s) ==> s.core.ws.None?)
  }

  /** A step leaves the dials it does not begin or finish as they are. */
  lemma DialsAfter(s: State, l: Label, d: Dialer)
    requires Enabled(s, l) && Dials(Apply(s, l), d)
    ensures Dials(s, d) || (BeginsDial(s, l) && (if d.ByThread? then l == Enter(d.thread) else l == Check(d.loop)))
    ensures BeginsDial(s, l) ==> !s.core.closed && s.core.ws.None? && Apply(s, l).core.ws.None?
    ensures l.InstallByThread? ==> d != ByThread(l.t)
    ensures l.InstallByLoop? ==> d != ByLoop(l.g)
  {
    if ThreadStep(l) {
      ThreadDialsAfter(s, l, d);
    } else {
      OtherDialsAfter(s, l, d);
    }
  }

  lemma ThreadDialsAfter(s: State, l: Label, d: Dialer)
    requires Enabled(s, l) && Dials(Apply(s, l), d) && ThreadStep(l)
    ensures Dials(s, d) || (BeginsDial(s, l) && (if d.ByThread? then l == Enter(d.thread) else l == Check(d.loop)))
    ensures BeginsDial(s, l) ==> !s.core.closed && s.core.ws.None? && Apply(s, l).core.ws.None?
    ensures l.InstallByThread? ==> d != ByThread(l.t)
  {
  }

  lemma OtherDialsAfter(s: State, l: Label, d: Dialer)
    requires Enabled(s, l) && Dials(Apply(s, l), d) && !ThreadStep(l)
    ensures Dials(s, d) || (BeginsDial(s, l) && (if d.ByThread? then l == Enter(d.thread) else l == Check(d.loop)))
    ensures BeginsDial(s, l) ==> !s.core.closed && s.core.ws.None? && Apply(s, l).core.ws.None?
    ensures l.InstallByLoop? ==> d != ByLoop(l.g)
  {
  }

  lemma StepKeepsOneDial(s: State, l: Label)
    requires OneDial(s) && Enabled(s, l) && (BeginsDial(s, l) ==> !DialInProgress(s))
    ensures OneDial(Apply(s, l)) && !InstallsOver(s, l)
  {
    var s' := Apply(s, l);
    if l.InstallByThread? {
      assert Dials(s, ByThread(l.t));
    } else if l.InstallByLoop? {
      assert Dials(s, ByLoop(l.g));
    }
    forall d, e | Dials(s', d) && Dials(s', e) ensures d == e && s'.core.ws.None? {
      DialsAfter(s, l, d);
      DialsAfter(s, l, e);
    }
  }

  lemma {:induction false} DisjointRunKeeps(s: State, ls: seq<Label>)
    requires Inv(s) && SingleConnection(s) && OneDial(s)
    requires Runs(s, ls) && DialsDisjoint(s, ls)
    ensures var s' := Exec(s, ls); Inv(s') && SingleConnection(s') && OneDial(s')
    decreases |ls|
  {
    if ls != [] {
      StepKeepsInv(s, ls[0]);
      StepKeepsOneDial(s, ls[0]);
      OnlyConnectAbandons(s, ls[0]);
      DisjointRunKeeps(Apply(s, ls[0]), ls[1..]);
    }
  }

  /** With dials that do not overlap, a connection is only ever installed over
      an empty slot, and none is left behind alive. */
  lemma InstalledOverEmptySlot(ls: seq<Label>, l: Label)
    requires Runs(Fresh, ls) && DialsDisjoint(Fresh, ls)
    requires var s := Exec(Fresh, ls);
      && Enabled(s, l) && (BeginsDial(s, l) ==> !DialInProgress(s))
    ensures var s := Exec(Fresh, ls);
      && SingleConnection(s)
      && (Apply(s, l).core.ws.Some? && Apply(s, l).core.ws != s.core.ws ==> s.core.ws.None?)
  {
    DisjointRunKeeps(Fresh, ls);
    StepKeepsOneDial(Exec(Fresh, ls), l);
  }

  /** A caller's connection was installed when it took it. */
  ghost predicate CallersKnowTheirConn(s: State) {
    forall i :: 0 <= i < |s.callers| ==>
      s.callers[i].conn < |s.conns| && !s.conns[s.callers[i].conn].reader.Unstarted?
  }

  lemma StepKeepsCallers(s: State, l: Label)
    requires Consistent(s) && CallersKnowTheirConn(s) && Enabled(s, l)
    ensures CallersKnowTheirConn(Apply(s, l))
  {
    if ThreadStep(l) {
      ThreadStepKeepsCallers(s, l);
    } else if OfLoop(l) {
      LoopStepKeepsCallers(s, l);
    } else {
      OtherStepKeepsCallers(s, l);
    }
  }

  lemma ThreadStepKeepsCallers(s: State, l: Label)
    requires Consistent(s) && CallersKnowTheirConn(s) && Enabled(s, l) && ThreadStep(l)
    ensures CallersKnowTheirConn(Apply(s, l))
  {
  }

  lemma LoopStepKeepsCallers(s: State, l: Label)
    requires Consistent(s) && CallersKnowTheirConn(s) && Enabled(s, l) && OfLoop(l)
    ensures CallersKnowTheirConn(Apply(s, l))
  {
  }

  lemma OtherStepKeepsCallers(s: State, l: Label)
    requires Consistent(s) && CallersKnowTheirConn(s) && Enabled(s, l) && !ThreadStep(l) && !OfLoop(l)
    ensures CallersKnowTheirConn(Apply(s, l))
  {
  }

  lemma {:induction false} CallersRun(s: State, ls: seq<Label>)
    requires Inv(s) && CallersKnowTheirConn(s) && Runs(s, ls)
    ensures CallersKnowTheirConn(Exec(s, ls))
    decreases |ls|
  {
    if ls != [] {
      StepKeepsInv(s, ls[0]);
      StepKeepsCallers(s, ls[0]);
      CallersRun(Apply(s, ls[0]), ls[1..]);
    }
  }

  /** A connection that was overwritten while alive: no context ends with it. */
  predicate Abandoned(s: State, k: nat) {
    && k < |s.conns| && !s.conns[k].reader.Unstarted? && !s.conns[k].cancelled
    && s.core.ws != Some(k) && !HeldByClose(s, k)
  }

  lemma SingleMeansNoneAbandoned(s: State)
    ensures SingleConnection(s) <==> forall k: nat :: !Abandoned(s, k)
  {
    if forall k: nat :: !Abandoned(s, k) {
      forall k | 0 <= k < |s.conns| && !s.conns[k].reader.Unstarted? && !s.conns[k].cancelled
        ensures s.core.ws == Some(k) || HeldByClose(s, k)
      {
        assert !Abandoned(s, k);
      }
    }
  }

  /** Nothing ever cancels an abandoned connection. */
  lemma AbandonedForGood(s: State, l: Label, k: nat)
    requires Consistent(s) && ThreadDialsOwned(s) && LoopDialsOwned(s) && Abandoned(s, k) && Enabled(s, l)
    ensures Abandoned(Apply(s, l), k)
  {
    if ThreadStep(l) {
      ThreadStepKeepsAbandoned(s, l, k);
    } else {
      OtherStepKeepsAbandoned(s, l, k);
    }
  }

  lemma ThreadStepKeepsAbandoned(s: State, l: Label, k: nat)
    requires ThreadDialsOwned(s) && Abandoned(s, k) && Enabled(s, l) && ThreadStep(l)
    ensures Abandoned(Apply(s, l), k)
  {
  }

  lemma OtherStepKeepsAbandoned(s: State, l: Label, k: nat)
    requires Consistent(s) && LoopDialsOwned(s) && Abandoned(s, k) && Enabled(s, l) && !ThreadStep(l)
    ensures Abandoned(Apply(s, l), k)
  {
  }

  lemma {:induction false} AbandonedRun(s: State, ls: seq<Label>, k: nat)
    requires Inv(s) && Abandoned(s, k) && Runs(s, ls)
    ensures Inv(Exec(s, ls)) && Abandoned(Exec(s, ls), k)
    decreases |ls|
  {
    if ls != [] {
      StepKeepsInv(s, ls[0]);
      AbandonedForGood(s, ls[0], k);
      AbandonedRun(Apply(s, ls[0]), ls[1..], k);
    }
  }

  /** A run in which Connect never installs over another connection. */
  predicate NeverInstallsOver(s: State, ls: seq<Label>)
    requires Runs(s, ls)
    decreases |ls|
  {
    ls == [] || (!InstallsOver(s, ls[0]) && NeverInstallsOver(Apply(s, ls[0]), ls[1..]))
  }

  /** The exact condition, over whole runs: a live connection is left behind if
      and only if Connect installed over another one. */
  lemma {:induction false} AbandonsExactlyWhenInstallingOver(s: State, ls: seq<Label>)
    requires Inv(s) && SingleConnection(s) && Runs(s, ls)
    ensures SingleConnection(Exec(s, ls)) <==> NeverInstallsOver(s, ls)
    decreases |ls|
  {
    if ls != [] {
      var s' := Apply(s, ls[0]);
      StepKeepsInv(s, ls[0]);
      OnlyConnectAbandons(s, ls[0]);
      if InstallsOver(s, ls[0]) {
        SingleMeansNoneAbandoned(s');
        var k: nat :| Abandoned(s', k);
        AbandonedRun(s', ls[1..], k);
        SingleMeansNoneAbandoned(Exec(s', ls[1..]));
      } else {
        AbandonsExactlyWhenInstallingOver(s', ls[1..]);
      }
    }
  }

  /** Some step ends the call now, or a Close that holds its connection is about
      to make that possible. */
  ghost predicate Rescued(s: State, i: nat)
    requires i < |s.callers|
  {
    || Enabled(s, InvokeSeesClosed(i))
    || Enabled(s, InvokeSeesFailure(i))
    || (HeldByClose(s, s.callers[i].conn) && Enabled(s, CloseStep))
  }

  /** In every reachable state: a waiting Invoke whose connection is gone is
      rescued, unless the connection was abandoned and the pending table has not
      been failed since the call was entered. */
  lemma RescuedExactly(ls: seq<Label>, i: nat)
    requires Runs(Fresh, ls) && Waits(Exec(Fresh, ls), i)
    requires Exec(Fresh, ls).core.ws != Some(Exec(Fresh, ls).callers[i].conn)
    ensures var s := Exec(Fresh, ls);
      Rescued(s, i) <==> !Abandoned(s, s.callers[i].conn) || s.callers[i].slot.Failed?
  {
    CallersRun(Fresh, ls);
    KnownConnIsRescued(Exec(Fresh, ls), i);
  }

  lemma KnownConnIsRescued(s: State, i: nat)
    requires CallersKnowTheirConn(s) && Waits(s, i) && s.core.ws != Some(s.callers[i].conn)
    ensures Rescued(s, i) <==> !Abandoned(s, s.callers[i].conn) || s.callers[i].slot.Failed?
  {
  }

  /** No blocked Invoke is stranded once its connection is no longer the
      installed one, whether or not it was in the pending table when that table
      was swapped, in any run in which Connect never installs over another
      connection. */
  lemma NoStrandedCaller(ls: seq<Label>, i: nat)
    requires Runs(Fresh, ls) && NeverInstallsOver(Fresh, ls)
    requires Waits(Exec(Fresh, ls), i)
    requires Exec(Fresh, ls).core.ws != Some(Exec(Fresh, ls).callers[i].conn)
    ensures Rescued(Exec(Fresh, ls), i)
  {
    AbandonsExactlyWhenInstallingOver(Fresh, ls);
    SingleMeansNoneAbandoned(Exec(Fresh, ls));
    RescuedExactly(ls, i);
  }

  /** The converse: once Connect installs over a connection, every Invoke that
      waits on it is stranded for as long as it waits; only a failure of the
      client's whole pending table, if the call is in it, can end its wait. */
  lemma InstallingOverStrands(s: State, l: Label, i: nat, after: seq<Label>)
    requires Reachable(s) && Enabled(s, l) && InstallsOver(s, l)
    requires Waits(s, i) && Some(s.callers[i].conn) == s.core.ws && Runs(Apply(s, l), after)
    ensures var s' := Exec(Apply(s, l), after);
      && i < |s'.callers| && Abandoned(s', s.callers[i].conn)
      && (Rescued(s', i) <==> Enabled(s', InvokeSeesFailure(i)))
  {
    ReachableInv(s);
    StepKeepsInv(s, l);
    AbandonedRun(Apply(s, l), after, s.callers[i].conn);
    CallerKeepsConn(Apply(s, l), after, i);
  }

  lemma {:induction false} CallerKeepsConn(s: State, ls: seq<Label>, i: nat)
    requires Runs(s, ls) && i < |s.callers|
    ensures i < |Exec(s, ls).callers| && Exec(s, ls).callers[i].conn == s.callers[i].conn
    decreases |ls|
  {
    if ls != [] {
      FailureComesFromTheTable(s, ls[0], i);
      CallerKeepsConn(Apply(s, ls[0]), ls[1..], i);
    }
  }

  /** A call's channel gets a failure exactly when the call is in the table and
      an onDisconnect or Close fails it. */
  lemma FailureComesFromTheTable(s: State, l: Label, i: nat)
    requires Enabled(s, l) && i < |s.callers|
    ensures i < |Apply(s, l).callers| && Apply(s, l).callers[i].conn == s.callers[i].conn
    ensures Apply(s, l).callers[i].slot.Failed? <==>
      s.callers[i].slot.Failed? ||
      (s.callers[i].slot.Pending? && (l.FailPending? || (l.CloseStep? && s.closer.ClearingPending?)))
  {
  }

  /** Dials that do not overlap never install over another connection. */
  lemma {:induction false} DisjointDialsNeverInstallOver(s: State, ls: seq<Label>)
    requires OneDial(s) && Runs(s, ls) && DialsDisjoint(s, ls)
    ensures NeverInstallsOver(s, ls)
    decreases |ls|
  {
    if ls != [] {
      StepKeepsOneDial(s, ls[0]);
      DisjointDialsNeverInstallOver(Apply(s, ls[0]), ls[1..]);
    }
  }

  /** onDisconnect cancels the connection before it fails the pending table, so
      every Invoke waiting on that connection can already return, with the plain
      closed error, while the one that carries UNAVAILABLE is still to come. */
  lemma DisconnectRacesWithPending(s: State, k: nat, i: nat)
    requires Reachable(s) && Enabled(s, Detach(k)) && s.core.ws == Some(k)
    requires Waits(s, i) && s.callers[i].conn == k
    ensures var s' := Apply(s, Detach(k));
      Enabled(s', InvokeSeesClosed(i)) && Enabled(s', FailPending(k)) &&
      Enabled(Apply(s', InvokeSeesClosed(i)), FailPending(k))
  {
    ReachableInv(s);
  }

  // ----- what overlapping dials can do -----

  lemma {:induction false} OneMore(s: State, ls: seq<Label>, l: Label)
    requires Runs(s, ls) && Enabled(Exec(s, ls), l)
    ensures Runs(s, ls + [l]) && Exec(s, ls + [l]) == Apply(Exec(s, ls), l)
    decreases |ls|
  {
    if ls == [] {
      assert Runs(Apply(s, l), []);
    } else {
      OneMore(Apply(s, ls[0]), ls[1..], l);
      assert (ls + [l])[1..] == ls[1..] + [l];
    }
  }

  lemma ReachableStep(s: State, l: Label)
    requires Reachable(s) && Enabled(s, l)
    ensures Reachable(Apply(s, l))
  {
    var ls :| Runs(Fresh, ls) && Exec(Fresh, ls) == s;
    OneMore(Fresh, ls, l);
  }

  /** Two calls of Connect, each past its first check and its dial. */
  const TwoDialled: State := State(EmptyCore,
    [Conn(false, Unstarted(ByThread(0))), Conn(false, Unstarted(ByThread(1)))], [],
    [Installing(0, None), Installing(1, None)], NotClosing, [])

  /** The first is installed, and an Invoke waits on it. */
  const FirstInstalled: State := State(Install(EmptyCore, 0),
    [Conn(false, Reading), Conn(false, Unstarted(ByThread(1)))], [],
    [Returned, Installing(1, None)], NotClosing, [Caller(0, Slot.Pending, false)])

  /** The second has overwritten the first, whose connection then died. */
  const Stranding: State := State(Install(EmptyCore, 1),
    [Conn(false, Ended), Conn(false, Reading)], [],
    [Returned, Returned], NotClosing, [Caller(0, Slot.Pending, false)])

  lemma TwoDialledReachable()
    ensures Reachable(TwoDialled)
  {
    assert Runs(Fresh, []) && Exec(Fresh, []) == Fresh;
    var s := Advance(Fresh, CallConnect);
    s := Advance(s, CallConnect);
    assert s.threads == [Entering(None), Entering(None)];
    s := Advance(s, Enter(0));
    s := Advance(s, Enter(1));
    s := Advance(s, DialSucceeds(0));
    s := Advance(s, DialSucceeds(1));
    assert s.conns == TwoDialled.conns && s.threads == TwoDialled.threads;
  }

  lemma FirstInstalledReachable()
    ensures Reachable(FirstInstalled)
  {
    TwoDialledReachable();
    var s := Advance(TwoDialled, InstallByThread(0));
    s := Advance(s, BeginInvoke);
    s := Advance(s, RegisterInvoke(0));
    assert s.conns == FirstInstalled.conns && s.threads == FirstInstalled.threads && s.callers == FirstInstalled.callers;
  }

  lemma StrandingReachable()
    ensures Reachable(Stranding)
  {
    FirstInstalledReachable();
    var s := Advance(FirstInstalled, InstallByThread(1));
    s := Advance(s, ReadFails(0));
    s := Advance(s, Detach(0));
    assert s.conns == Stranding.conns && s.threads == Stranding.threads;
  }

  /** Two overlapping calls of Connect do reach such a state: the caller waits on
      a dead connection and is in the pending table, and no step ends its wait
      until another connection ends, the client is closed, or its own context
      does. */
  lemma OverlappingDialsCanStrand()
    ensures Reachable(Stranding) && Waits(Stranding, 0) && !Rescued(Stranding, 0)
    ensures var k := Stranding.callers[0].conn;
      Abandoned(Stranding, k) && Stranding.conns[k].reader.Ended? && Stranding.callers[0].slot.Pending?
  {
    StrandingReachable();
  }

  lemma Advance(s: State, l: Label) returns (s': State)
    requires Reachable(s) && Enabled(s, l)
    ensures Reachable(s') && s' == Apply(s, l)
  {
    ReachableStep(s, l);
    s' := Apply(s, l);
  }

  // ----- Close and disableReconnect get their loop back -----

  /** How far a loop that was told to end may still go. */
  function Rank(pc: LoopPc): nat {
    match pc
    case Exited => 0
    case Checking => 1
    case LoopInstalling(_) => 1
    case Sleeping => 2
    case Idle => 2
    case Confirming => 3
    case LoopDialing => 3
  }

  predicate LoopStep(l: Label, g: nat) {
    match l
    case TakeToken(h) => h == g
    case LoopSeesCancel(h) => h == g
    case Check(h) => h == g
    case LoopDialFails(h) => h == g
    case LoopDialSucceeds(h) => h == g
    case InstallByLoop(h) => h == g
    case Confirm(h) => h == g
    case TimerFires(h) => h == g
    case _ => false
  }

  /** The steps a loop that was told to end needs, if it takes the way out. */
  function ExitRank(pc: LoopPc): nat {
    match pc
    case Exited => 0
    case Idle => 1
    case Sleeping => 1
    case LoopDialing => 2
    case Confirming => 2
    case Checking => 3
    case LoopInstalling(_) => 3
  }

  /** A loop that was told to end has a step of its own towards its end. */
  lemma CancelledLoopCanExit(s: State, g: nat) returns (l: Label)
    requires LoopDialsOwned(s) && g < |s.loops| && s.loops[g].cancelled && !s.loops[g].pc.Exited?
    ensures LoopStep(l, g) && Enabled(s, l)
    ensures ExitRank(Apply(s, l).loops[g].pc) < ExitRank(s.loops[g].pc) <= 3
  {
    match s.loops[g].pc {
      case Checking => l := Check(g);
      case LoopDialing => l := LoopDialFails(g);
      case LoopInstalling(_) => l := InstallByLoop(g);
      case Confirming => l := Confirm(g);
      case _ => l := LoopSeesCancel(g);
    }
  }

  /** While Close waits for the reconnect loop, the loop was told to end, and has
      a step towards that. */
  lemma AwaitedLoopCanStep(s: State, g: nat) returns (l: Label)
    requires Reachable(s) && s.closer == AwaitingLoop(Some(g)) && !Enabled(s, CloseStep)
    ensures g < |s.loops| && LoopStep(l, g) && Enabled(s, l)
    ensures ExitRank(Apply(s, l).loops[g].pc) < ExitRank(s.loops[g].pc) <= 3
  {
    ReachableInv(s);
    l := CancelledLoopCanExit(s, g);
  }

  /** The same while disableReconnect waits for the loop that its own
      ConnectWithReconnect started: the wait is over, or the loop has a step. */
  lemma DisabledLoopCanStep(s: State, t: nat) returns (l: Label)
    requires Reachable(s) && t < |s.threads| && s.threads[t].AwaitingOwn? && !Enabled(s, SeeOwnLoopExit(t))
    ensures var g := s.threads[t].own;
      && g < |s.loops| && LoopStep(l, g) && Enabled(s, l)
      && ExitRank(Apply(s, l).loops[g].pc) < ExitRank(s.loops[g].pc) <= 3
  {
    ReachableInv(s);
    l := CancelledLoopCanExit(s, s.threads[t].own);
  }

  /** Once the client is closed, each step of the loop brings its end closer and
      no other step delays it. With `AwaitedLoopCanStep`: Close's wait cannot
      deadlock and takes at most three steps of the loop. */
  lemma AwaitedLoopEnds(s: State, l: Label, g: nat)
    requires Consistent(s) && s.core.closed && Enabled(s, l) && g < |s.loops|
    ensures g < |Apply(s, l).loops|
    ensures LoopStep(l, g) ==> Rank(Apply(s, l).loops[g].pc) < Rank(s.loops[g].pc) <= 3
    ensures !LoopStep(l, g) ==> Apply(s, l).loops[g].pc == s.loops[g].pc
  {
  }
}
