/** Connect events (pkg/holonrpc/server.go): connection goroutines register a
    peer and then offer its id to a bounded queue without blocking; callers of
    WaitForClient take ids from it. */
module ConnectQueue {
  import opened PeerNames

  const CAPACITY: nat := 32

  // ----- the queue itself -----

  predicate Fits(q: seq<string>) {
    |q| < CAPACITY
  }

  /** A non-blocking send. */
  function Offered(q: seq<string>, id: string): seq<string> {
    if Fits(q) then q + [id] else q
  }

  // ----- all goroutines -----

  /** `registered` lists ids in the order of their numbers; `entering` are past
      registration but have not offered their id yet. */
  datatype State = State(
    registered: seq<string>,
    entering: seq<string>,
    queue: seq<string>,
    accepted: seq<string>,
    delivered: seq<string>,
    dropped: seq<string>)

  const Start := State([], [], [], [], [], [])

  datatype Label = Register | Offer(i: nat) | Take

  predicate Enabled(s: State, l: Label) {
    match l
    case Register => true
    case Offer(i) => i < |s.entering|
    case Take => s.queue != []
  }

  function Apply(s: State, l: Label): State
    requires Enabled(s, l)
  {
    match l
    case Register =>
      var id := PeerName(|s.registered| + 1);
      s.(registered := s.registered + [id], entering := s.entering + [id])
    case Offer(i) =>
      var id := s.entering[i];
      var s1 := s.(entering := s.entering[..i] + s.entering[i + 1..], queue := Offered(s.queue, id));
      if Fits(s.queue) then s1.(accepted := s.accepted + [id]) else s1.(dropped := s.dropped + [id])
    case Take => s.(queue := s.queue[1..], delivered := s.delivered + [s.queue[0]])
  }

  predicate Runs(s: State, ls: seq<Label>)
    decreases |ls|
  {
    ls == [] || (Enabled(s, ls[0]) && Runs(Apply(s, ls[0]), ls[1..]))
  }

  function Exec(s: State, ls: seq<Label>): State
    requires Runs(s, ls)
    decreases |ls|
  {
    if ls == [] then s else Exec(Apply(s, ls[0]), ls[1..])
  }

  ghost predicate Inv(s: State) {
    && (forall i :: 0 <= i < |s.registered| ==> s.registered[i] == PeerName(i + 1))
    && s.accepted == s.delivered + s.queue
    && |s.queue| <= CAPACITY
    && multiset(s.registered) ==
         multiset(s.entering) + multiset(s.queue) + multiset(s.delivered) + multiset(s.dropped)
  }

  lemma AddedLast(q: seq<string>, id: string)
    ensures multiset(q + [id]) == multiset(q) + multiset{id}
  {
  }

  lemma TakenOut(q: seq<string>, i: nat)
    requires i < |q|
    ensures multiset(q) == multiset(q[..i] + q[i + 1..]) + multiset{q[i]}
  {
    assert q == q[..i] + [q[i]] + q[i + 1..];
  }

  lemma RegisterKeepsInv(s: State)
    requires Inv(s)
    ensures Inv(Apply(s, Register))
  {
    AddedLast(s.registered, PeerName(|s.registered| + 1));
    AddedLast(s.entering, PeerName(|s.registered| + 1));
  }

  lemma OfferKeepsInv(s: State, i: nat)
    requires Inv(s) && Enabled(s, Offer(i))
    ensures Inv(Apply(s, Offer(i)))
  {
    var id := s.entering[i];
    TakenOut(s.entering, i);
    AddedLast(s.queue, id);
    AddedLast(s.dropped, id);
    assert s.delivered + (s.queue + [id]) == s.delivered + s.queue + [id];
  }

  lemma TakeKeepsInv(s: State)
    requires Inv(s) && Enabled(s, Take)
    ensures Inv(Apply(s, Take))
  {
    var id, rest := s.queue[0], s.queue[1..];
    assert s.queue == [id] + rest;
    AddedLast(s.delivered, id);
    assert s.delivered + ([id] + rest) == s.delivered + [id] + rest;
  }

  lemma StepKeepsInv(s: State, l: Label)
    requires Inv(s) && Enabled(s, l)
    ensures Inv(Apply(s, l))
  {
    match l {
      case Register => RegisterKeepsInv(s);
      case Offer(i) => OfferKeepsInv(s, i);
      case Take => TakeKeepsInv(s);
    }
  }

  lemma {:induction false} RunKeepsInv(s: State, ls: seq<Label>)
    requires Inv(s) && Runs(s, ls)
    ensures Inv(Exec(s, ls))
    decreases |ls|
  {
    if ls != [] {
      StepKeepsInv(s, ls[0]);
      RunKeepsInv(Apply(s, ls[0]), ls[1..]);
    }
  }

  lemma {:induction false} NamesAreDistinct(names: seq<string>, id: string)
    requires forall i :: 0 <= i < |names| ==> names[i] == PeerName(i + 1)
    ensures multiset(names)[id] == if id in names then 1 else 0
  {
    if names != [] {
      var n := |names| - 1;
      assert names == names[..n] + [names[n]];
      NamesAreDistinct(names[..n], id);
      if id == names[n] && id in names[..n] {
        var i :| 0 <= i < n && names[..n][i] == id;
        PeerNameInjective(i + 1, n + 1);
      }
    }
  }

  /** In every run each registered id is in exactly one place, delivery is first
      in, first out, and the queue never holds more than 32 ids. */
  lemma EventsConserved(ls: seq<Label>, id: string)
    requires Runs(Start, ls)
    ensures var s := Exec(Start, ls);
      && multiset(s.entering)[id] + multiset(s.queue)[id] + multiset(s.delivered)[id] + multiset(s.dropped)[id]
           == (if id in s.registered then 1 else 0)
      && s.delivered <= s.accepted && s.accepted == s.delivered + s.queue
      && |s.queue| <= 32
  {
    RunKeepsInv(Start, ls);
    NamesAreDistinct(Exec(Start, ls).registered, id);
  }

  /** An id is dropped only when 32 ids are waiting. */
  lemma DropsOnlyWhenFull(ls: seq<Label>, l: Label)
    requires Runs(Start, ls) && Enabled(Exec(Start, ls), l)
    ensures var s := Exec(Start, ls);
      Apply(s, l).dropped != s.dropped <==> l.Offer? && |s.queue| == 32
  {
    RunKeepsInv(Start, ls);
    StepKeepsInv(Exec(Start, ls), l);
  }
}
