/** The hub's state and its methods (pkg/holonrpc/server.go and routing.go). */
module ServerRuntime {
  import opened Wrappers
  import opened Text
  import opened RpcTypes
  import opened RouteHints
  import opened Dispatch
  import opened PeerNames
  import opened ConnectQueue
  import opened Pending

  // ----- which notifications a request causes -----

  /** A notification and the peer it is about. */
  datatype Notice = Notice(about: string, msg: Message)

  function NoticeOf(methodName: string, e: Entry): Notice {
    Notice(e.peer, Notification(methodName, EntryPayload(e)))
  }

  function NoticesOf(methodName: string, entries: seq<Entry>): seq<Notice> {
    seq(|entries|, i requires 0 <= i < |entries| => NoticeOf(methodName, entries[i]))
  }

  function Hears(recipient: string, caller: string, n: Notice): seq<Message> {
    if recipient in {caller, n.about} then [] else [n.msg]
  }

  /** The notices that a recipient gets: none about itself, and the caller none
      at all. */
  function Heard(recipient: string, caller: string, notices: seq<Notice>): seq<Message> {
    if notices == [] then []
    else Heard(recipient, caller, notices[..|notices| - 1]) + Hears(recipient, caller, notices[|notices| - 1])
  }

  lemma HeardNext(before: seq<Message>, recipient: string, caller: string, notices: seq<Notice>, i: nat)
    requires i < |notices|
    ensures before + Heard(recipient, caller, notices[..i]) + Hears(recipient, caller, notices[i]) ==
      before + Heard(recipient, caller, notices[..i + 1])
  {
    assert notices[..i + 1][..i] == notices[..i];
  }

  /** The notices that a routed request sends out. */
  function Announced(env: Surroundings, caller: string, route: Route): seq<Notice> {
    match route
    case Unicast(target, mode, m, params) =>
      if target in env.connected && mode.BroadcastResponse? && env.remote(target, m, params).Ok?
      then [NoticeOf(m, Entry(target, env.remote(target, m, params)))] else []
    case FanOut(mode, m, _) =>
      if env.connected - {caller} != {} && mode.FullBroadcast? then NoticesOf(m, env.entries) else []
    case _ => []
  }

  /** The answers of all connected peers but the caller, one each, in some order. */
  ghost predicate EntriesComplete(env: Surroundings, caller: string, methodName: string, params: Params) {
    && (forall i :: 0 <= i < |env.entries| ==>
          env.entries[i].peer in env.connected - {caller}
          && env.entries[i].answer == env.remote(env.entries[i].peer, methodName, params))
    && (forall i, j :: 0 <= i < j < |env.entries| ==> env.entries[i].peer != env.entries[j].peer)
    && (forall id :: id in env.connected - {caller} ==> exists i :: 0 <= i < |env.entries| && env.entries[i].peer == id)
  }

  /** With notices about different peers, a peer other than the caller hears one
      about each but itself. */
  lemma {:induction false} HeardCount(recipient: string, caller: string, notices: seq<Notice>)
    requires recipient != caller
    requires forall i, j :: 0 <= i < j < |notices| ==> notices[i].about != notices[j].about
    ensures |Heard(recipient, caller, notices)| ==
      |notices| - if exists i :: 0 <= i < |notices| && notices[i].about == recipient then 1 else 0
  {
    if notices != [] {
      var n := |notices| - 1;
      var front := notices[..n];
      HeardCount(recipient, caller, front);
      if notices[n].about == recipient {
        assert forall i :: 0 <= i < n ==> front[i] == notices[i] && front[i].about != recipient;
      } else if i :| 0 <= i < |notices| && notices[i].about == recipient {
        assert front[i].about == recipient;
      }
    }
  }

  lemma {:induction false} CallerHearsNothing(caller: string, notices: seq<Notice>)
    ensures Heard(caller, caller, notices) == []
  {
    if notices != [] {
      CallerHearsNothing(caller, notices[..|notices| - 1]);
    }
  }

  /** Full-broadcast with a stable set of a caller and n other peers: every peer
      hears exactly n - 1 notices, the caller none. */
  lemma FullBroadcastHeard(env: Surroundings, caller: string, recipient: string, methodName: string, params: Params)
    requires EntriesComplete(env, caller, methodName, params) && recipient in env.connected
    ensures var route := FanOut(FullBroadcast, methodName, params);
      |Heard(recipient, caller, Announced(env, caller, route))| ==
        if recipient == caller then 0 else |env.entries| - 1
  {
    if recipient == caller {
      CallerHearsNothing(caller, Announced(env, caller, FanOut(FullBroadcast, methodName, params)));
    } else {
      var i := FindEntry(env, caller, recipient, methodName, params);
      OthersHeard(env.entries, i, caller, methodName);
    }
  }

  lemma FindEntry(env: Surroundings, caller: string, id: string, methodName: string, params: Params) returns (i: nat)
    requires EntriesComplete(env, caller, methodName, params) && id in env.connected && id != caller
    ensures i < |env.entries| && env.entries[i].peer == id
    ensures env.connected - {caller} != {}
  {
    assert id in env.connected - {caller};
    i :| 0 <= i < |env.entries| && env.entries[i].peer == id;
  }

  /** The peer of the i-th entry hears about all the others. */
  lemma OthersHeard(entries: seq<Entry>, i: nat, caller: string, methodName: string)
    requires i < |entries| && entries[i].peer != caller
    requires forall i, j :: 0 <= i < j < |entries| ==> entries[i].peer != entries[j].peer
    ensures |Heard(entries[i].peer, caller, NoticesOf(methodName, entries))| == |entries| - 1
  {
    var notices := NoticesOf(methodName, entries);
    assert notices[i].about == entries[i].peer;
    HeardCount(entries[i].peer, caller, notices);
  }

  /** What the caller is written. */
  function RepliesOn(env: Surroundings, caller: string, reqID: string, route: Route): seq<Message> {
    var v := RouteVerdict(env, caller, route);
    if HasID(reqID) && v.Some? then [Respond(reqID, v.value)] else []
  }

  ghost predicate EachOnce(ids: seq<string>, all: set<string>) {
    (forall id :: id in ids <==> id in all) && forall i, j :: 0 <= i < j < |ids| ==> ids[i] != ids[j]
  }

  // ----- state -----

  class ServerPeer {
    const id: string
    const pending: PendingTable<Message>
    var cancelled: bool
    /** What was written to the peer's connection. */
    var written: seq<Message>

    /** The peer has a table and channels of its own. */
    ghost predicate Valid()
      reads pending
    {
      pending.Valid() && pending.holder == id
    }

    constructor (id: string)
      ensures this.id == id && fresh(pending) && Valid() && pending.entries == map[]
      ensures !cancelled && written == []
    {
      this.id := id;
      pending := new PendingTable<Message>(id);
      cancelled, written := false, [];
    }

    /** Server.Invoke, once it has its peer and its id, up to its write.
        `writable` says whether the write succeeds; if not, the deferred delete
        takes the entry out again. */
    method Ask(callID: string, methodName: string, params: Params, writable: bool)
      returns (sent: Option<(string, OneSlot<Message>)>)
      requires Valid()
      modifies this`written, pending
      ensures Valid() && (sent.Some? <==> writable)
      ensures sent.Some? ==> sent.value.0 == MakeID(callID) && fresh(sent.value.1) && sent.value.1.content == None
      ensures pending.entries ==
        if sent.Some? then old(pending.entries)[MakeID(callID) := sent.value.1] else old(pending.entries) - {MakeID(callID)}
      ensures written == old(written) + if sent.Some? then [RequestMessage(MakeID(callID), methodName, params)] else []
    {
      var idRaw := MakeID(callID);
      IdRoundTrip(callID);
      var key := IdKey(idRaw).value;
      var slot := pending.Register(key);
      if !writable {
        pending.Remove(key);
        return None;
      }
      written := written + [RequestMessage(idRaw, methodName, params)];
      sent := Some((key, slot));
    }
  }

  class Server {
    var handlers: Table
    var peers: map<string, ServerPeer>
    var connectQ: seq<string>
    var nextClientID: nat
    var nextServerID: nat

    ghost predicate Filed()
      reads this
    {
      forall id :: id in peers ==> peers[id].id == id
    }

    /** Peers are filed under their own ids, which the counter has passed, and
        have tables and channels of their own. */
    ghost predicate Valid()
      reads this, set id | id in peers :: peers[id].pending
    {
      && Filed()
      && (forall id :: id in peers ==> exists n :: 1 <= n <= nextClientID && id == PeerName(n))
      && (forall id :: id in peers ==> peers[id].Valid())
      && |connectQ| <= CAPACITY
    }

    constructor (handlers: Table)
      ensures Valid() && peers == map[] && connectQ == [] && nextClientID == 0 && nextServerID == 0
      ensures this.handlers == handlers
    {
      this.handlers := handlers;
      peers, connectQ, nextClientID, nextServerID := map[], [], 0, 0;
    }

    /** handleWebSocket up to registration: a new id, nobody else's. */
    method RegisterPeer() returns (peer: ServerPeer)
      requires Valid()
      modifies this`peers, this`nextClientID
      ensures Valid() && fresh(peer) && nextClientID == old(nextClientID) + 1
      ensures peer.id == "c" + Decimal(nextClientID) && peer.id !in old(peers)
      ensures peers == old(peers)[peer.id := peer]
    {
      nextClientID := nextClientID + 1;
      peer := new ServerPeer(PeerName(nextClientID));
      if peer.id in peers {
        var n :| 1 <= n <= nextClientID - 1 && peer.id == PeerName(n);
        PeerNameInjective(n, nextClientID);
        assert false;
      }
      peers := peers[peer.id := peer];
      assert peer.id == PeerName(nextClientID);
    }

    /** The connect event: a non-blocking send. */
    method AnnouncePeer(id: string) returns (queued: bool)
      requires Valid()
      modifies this`connectQ
      ensures Valid() && connectQ == Offered(old(connectQ), id) && queued == Fits(old(connectQ))
    {
      queued := |connectQ| < CAPACITY;
      if queued {
        connectQ := connectQ + [id];
      }
    }

    /** WaitForClient, when an event is there. */
    method TakeClient() returns (id: Option<string>)
      requires Valid()
      modifies this`connectQ
      ensures Valid()
      ensures old(connectQ) == [] ==> id == None && connectQ == []
      ensures old(connectQ) != [] ==> id.Some? && [id.value] + connectQ == old(connectQ)
    {
      if connectQ == [] {
        return None;
      }
      id := Some(connectQ[0]);
      connectQ := connectQ[1..];
    }

    /** handleWebSocket's deferred teardown. */
    method TearDown(peer: ServerPeer)
      requires Valid() && peer.Valid()
      modifies this`peers, peer`cancelled, peer.pending, peer.pending.entries.Values
      ensures Valid() && peers == old(peers) - {peer.id} && peer.cancelled
      ensures peer.Valid() && peer.pending.entries == map[]
      ensures forall k :: k in old(peer.pending.entries) ==>
        old(peer.pending.entries)[k].content == AfterSend(old(peer.pending.entries[k].content), UnavailableMessage)
    {
      peer.cancelled := true;
      peers := peers - {peer.id};
      peer.pending.FailAll(UnavailableMessage);
    }

    /** Invoke from its lookup to its write. */
    method SendRequest(clientID: string, methodName: string, params: Params, writable: bool)
      returns (sent: Option<(string, OneSlot<Message>)>)
      requires Valid()
      modifies this`nextServerID
      modifies if clientID in peers then {peers[clientID]} else {}
      modifies if clientID in peers then {peers[clientID].pending} else {}
      ensures Valid() && peers == old(peers)
      ensures clientID !in peers ==> sent == None && nextServerID == old(nextServerID)
      ensures clientID in peers ==>
        var peer, key := peers[clientID], MintedID('s', nextServerID);
        && nextServerID == old(nextServerID) + 1 && IdKey(key) == Some(key)
        && (sent.Some? <==> writable)
        && (sent.Some? ==> sent.value.0 == key && fresh(sent.value.1) && sent.value.1.content == None)
        && peer.pending.entries ==
             (if sent.Some? then old(peer.pending.entries)[key := sent.value.1] else old(peer.pending.entries) - {key})
        && peer.written == old(peer.written) + if sent.Some? then [RequestMessage(key, methodName, params)] else []
    {
      if clientID !in peers {
        return None;
      }
      nextServerID := nextServerID + 1;
      sent := peers[clientID].Ask("s" + Decimal(nextServerID), methodName, params, writable);
      IdRoundTrip("s" + Decimal(nextServerID));
    }

    /** handlePeerResponse: only the answering peer's own table is looked at. */
    method HandlePeerResponse(peer: ServerPeer, msg: Message)
      requires peer.pending.Valid()
      modifies peer.pending.entries.Values
      ensures peer.pending.Valid() && peer.pending.entries == old(peer.pending.entries)
      ensures forall k :: k in peer.pending.entries ==>
        peer.pending.entries[k].content ==
          if IdKey(msg.id) == Some(k) then AfterSend(old(peer.pending.entries[k].content), CheckVersion(msg))
          else old(peer.pending.entries[k].content)
    {
      var key := IdKey(msg.id);
      if key.None? {
        return;
      }
      peer.pending.Deliver(key, CheckVersion(msg));
    }

    /** Close under the peers lock: takes every peer, each once, and leaves the
        table empty. */
    method TakePeers() returns (taken: seq<ServerPeer>)
      requires Valid()
      modifies this`peers
      ensures Valid() && peers == map[]
      ensures forall p :: p in taken <==> p.id in old(peers) && old(peers)[p.id] == p
      ensures forall i, j :: 0 <= i < |taken| && 0 <= j < |taken| && i != j ==> taken[i].id != taken[j].id
    {
      taken := [];
      var left := peers.Keys;
      while left != {}
        invariant left <= peers.Keys && peers == old(peers)
        invariant forall p :: p in taken <==> p.id in peers && peers[p.id] == p && p.id !in left
        invariant forall i, j :: 0 <= i < |taken| && 0 <= j < |taken| && i != j ==> taken[i].id != taken[j].id
        decreases left
      {
        var id :| id in left;
        taken := taken + [peers[id]];
        left := left - {id};
      }
      peers := map[];
    }

    /** Close's part for one peer that it has taken. */
    method Dismiss(peer: ServerPeer)
      requires peer.Valid()
      modifies peer`cancelled, peer.pending, peer.pending.entries.Values
      ensures peer.cancelled && peer.Valid() && peer.pending.entries == map[]
      ensures forall k :: k in old(peer.pending.entries) ==>
        old(peer.pending.entries)[k].content == AfterSend(old(peer.pending.entries[k].content), UnavailableMessage)
    {
      peer.cancelled := true;
      peer.pending.FailAll(UnavailableMessage);
    }

    /** Close's loop: every peer is cancelled, and every call pending at any of
        them has an answer. */
    method DismissAll(taken: seq<ServerPeer>)
      requires forall i :: 0 <= i < |taken| ==> taken[i].Valid()
      requires forall i, j :: 0 <= i < |taken| && 0 <= j < |taken| && i != j ==> taken[i].id != taken[j].id
      modifies set p | p in taken :: p`cancelled
      modifies set p | p in taken :: p.pending
      modifies set p, k | p in taken && k in p.pending.entries :: p.pending.entries[k]
      ensures forall i :: 0 <= i < |taken| ==> taken[i].Valid() && taken[i].cancelled && taken[i].pending.entries == map[]
      ensures forall i, k :: 0 <= i < |taken| && k in old(taken[i].pending.entries) ==>
        old(taken[i].pending.entries)[k].content ==
          AfterSend(old(taken[i].pending.entries[k].content), UnavailableMessage)
    {
      var i := 0;
      while i < |taken|
        invariant i <= |taken|
        invariant forall j :: 0 <= j < |taken| ==> taken[j].Valid()
        invariant forall j :: 0 <= j < i ==> taken[j].cancelled && taken[j].pending.entries == map[]
        invariant forall j :: i <= j < |taken| ==> taken[j].pending.entries == old(taken[j].pending.entries)
        invariant forall j, k :: 0 <= j < |taken| && k in old(taken[j].pending.entries) ==>
          && old(taken[j].pending.entries)[k].table == taken[j].pending
          && old(taken[j].pending.entries)[k].content ==
               if j < i then AfterSend(old(taken[j].pending.entries[k].content), UnavailableMessage)
               else old(taken[j].pending.entries[k].content)
      {
        assert taken[i] in taken;
        assert forall j :: 0 <= j < |taken| && j != i ==> taken[j].pending.holder != taken[i].pending.holder;
        Dismiss(taken[i]);
        i := i + 1;
      }
    }

    /** Close's part in the peers: the table is left empty, every peer that was in
        it is cancelled, and every call pending at any of them has an answer. */
    method ClosePeers()
      requires Valid()
      modifies this`peers
      modifies set id | id in peers :: peers[id]`cancelled
      modifies set id | id in peers :: peers[id].pending
      modifies set id, k | id in peers && k in peers[id].pending.entries :: peers[id].pending.entries[k]
      ensures Valid() && peers == map[]
      ensures forall id :: id in old(peers) ==> old(peers)[id].cancelled && old(peers)[id].pending.entries == map[]
      ensures forall id, k :: id in old(peers) && k in old(peers[id].pending.entries) ==>
        old(peers[id].pending.entries)[k].content ==
          AfterSend(old(peers[id].pending.entries[k].content), UnavailableMessage)
    {
      ghost var was := peers;
      var taken := TakePeers();
      forall i | 0 <= i < |taken| ensures taken[i].Valid() {
        assert taken[i] in taken;
        assert was[taken[i].id] == taken[i];
      }
      assert forall id :: id in was ==> was[id] in taken;
      DismissAll(taken);
    }

    // ----- routing -----

    method SnapshotPeerIDsExcluding(excluded: string) returns (ids: seq<string>)
      ensures forall id :: id in ids <==> id in peers && id != excluded
      ensures forall i, j :: 0 <= i < j < |ids| ==> ids[i] != ids[j]
    {
      ids := [];
      var left := peers.Keys;
      while left != {}
        invariant left <= peers.Keys
        invariant forall id :: id in ids <==> id in peers && id !in left && id != excluded
        invariant forall i, j :: 0 <= i < j < |ids| ==> ids[i] != ids[j]
        decreases left
      {
        var id :| id in left;
        left := left - {id};
        if id != excluded {
          ids := ids + [id];
        }
      }
    }

    method WritePeer(peer: ServerPeer, msg: Message)
      modifies peer`written
      ensures peer.written == old(peer.written) + [msg]
    {
      peer.written := peer.written + [msg];
    }

    method BroadcastNotificationMany(exclude: set<string>, msg: Message)
      requires Filed()
      modifies set id | id in peers :: peers[id]`written
      ensures forall id :: id in peers ==>
        peers[id].written == old(peers[id].written) + if id in exclude then [] else [msg]
    {
      var left := peers.Keys - exclude;
      while left != {}
        invariant left <= peers.Keys - exclude
        invariant forall id :: id in peers ==>
          peers[id].written == old(peers[id].written) + if id in exclude || id in left then [] else [msg]
        decreases left
      {
        var id :| id in left;
        left := left - {id};
        WritePeer(peers[id], msg);
      }
    }

    /** dispatchFanOut, its calls' results given by `remote`. The targets' answers
        arrive in an arbitrary order (see FanOut.dfy). */
    method DispatchFanOut(caller: string, methodName: string, params: Params,
                          remote: (string, string, Params) -> InvokeResult)
      returns (entries: seq<Entry>)
      ensures forall i :: 0 <= i < |entries| ==>
        entries[i].peer in peers && entries[i].peer != caller
        && entries[i].answer == remote(entries[i].peer, methodName, params)
      ensures forall i, j :: 0 <= i < j < |entries| ==> entries[i].peer != entries[j].peer
      ensures forall id :: id in peers && id != caller ==> exists i :: 0 <= i < |entries| && entries[i].peer == id
      ensures entries == [] <==> peers.Keys - {caller} == {}
    {
      var targets := SnapshotPeerIDsExcluding(caller);
      entries := [];
      var waiting := set id | id in targets;
      while waiting != {}
        invariant waiting <= peers.Keys - {caller}
        invariant forall i :: 0 <= i < |entries| ==>
          entries[i].peer in peers && entries[i].peer != caller && entries[i].peer !in waiting
          && entries[i].answer == remote(entries[i].peer, methodName, params)
        invariant forall i, j :: 0 <= i < j < |entries| ==> entries[i].peer != entries[j].peer
        invariant forall id :: id in peers && id != caller ==>
          id in waiting || exists i :: 0 <= i < |entries| && entries[i].peer == id
        decreases waiting
      {
        var id :| id in waiting;
        waiting := waiting - {id};
        ghost var before := entries;
        entries := entries + [Entry(id, remote(id, methodName, params))];
        assert forall i :: 0 <= i < |before| ==> entries[i] == before[i];
        assert entries[|before|].peer == id;
      }
      if entries != [] {
        assert entries[0].peer in peers.Keys - {caller};
      }
    }

    /** sendPeerResult and sendPeerError, each guarded by hasID. */
    method Answer(peer: ServerPeer, id: string, v: Verdict)
      modifies peer`written
      ensures peer.written == old(peer.written) + if HasID(id) then [Respond(id, v)] else []
    {
      if HasID(id) {
        WritePeer(peer, Respond(id, v));
      }
    }

    /** The broadcasts of a request, one for each notice. */
    method Announce(caller: string, notices: seq<Notice>)
      requires Filed()
      modifies set id | id in peers :: peers[id]`written
      ensures forall id :: id in peers ==>
        peers[id].written == old(peers[id].written) + Heard(id, caller, notices)
    {
      var i := 0;
      while i < |notices|
        invariant i <= |notices|
        invariant forall id :: id in peers ==>
          peers[id].written == old(peers[id].written) + Heard(id, caller, notices[..i])
      {
        BroadcastNotificationMany({caller, notices[i].about}, notices[i].msg);
        forall id | id in peers
          ensures peers[id].written == old(peers[id].written) + Heard(id, caller, notices[..i + 1])
        {
          HeardNext(old(peers[id].written), id, caller, notices, i);
        }
        i := i + 1;
      }
      assert notices[..i] == notices;
    }

    /** Announces, then answers: what the caller and the others are sent. */
    method AnnounceAndAnswer(peer: ServerPeer, reqID: string, notices: seq<Notice>, v: Verdict)
      requires Filed() && (peer.id in peers ==> peers[peer.id] == peer)
      modifies peer`written, set id | id in peers :: peers[id]`written
      ensures peer.written == old(peer.written) + if HasID(reqID) then [Respond(reqID, v)] else []
      ensures forall id :: id in peers && id != peer.id ==>
        peers[id].written == old(peers[id].written) + Heard(id, peer.id, notices)
    {
      Announce(peer.id, notices);
      CallerHearsNothing(peer.id, notices);
      Answer(peer, reqID, v);
    }

    /** routePeerRequest for a fan-out, once the answers are in. */
    method ReportFanOut(peer: ServerPeer, reqID: string, mode: Mode, methodName: string, entries: seq<Entry>)
      requires Filed() && (peer.id in peers ==> peers[peer.id] == peer)
      modifies peer`written, set id | id in peers :: peers[id]`written
      ensures peer.written == old(peer.written) +
        if HasID(reqID) then [Respond(reqID, if entries == [] then NoPeers else FanOutVerdict(entries))] else []
      ensures forall id :: id in peers && id != peer.id ==>
        peers[id].written == old(peers[id].written) +
          Heard(id, peer.id, if entries != [] && mode.FullBroadcast? then NoticesOf(methodName, entries) else [])
    {
      if entries == [] {
        Answer(peer, reqID, NoPeers);
        return;
      }
      AnnounceAndAnswer(peer, reqID, if mode.FullBroadcast? then NoticesOf(methodName, entries) else [],
                        FanOutVerdict(entries));
    }

    /** routePeerRequest for a fan-out. */
    method RouteFanOut(peer: ServerPeer, reqID: string, mode: Mode, methodName: string, params: Params,
                       remote: (string, string, Params) -> InvokeResult)
      returns (entries: seq<Entry>)
      requires Filed() && (peer.id in peers ==> peers[peer.id] == peer)
      modifies peer`written, set id | id in peers :: peers[id]`written
      ensures EntriesComplete(Surroundings(handlers, [], peers.Keys, remote, false, entries), peer.id, methodName, params)
      ensures peer.written == old(peer.written) +
        if HasID(reqID) then [Respond(reqID, if entries == [] then NoPeers else FanOutVerdict(entries))] else []
      ensures forall id :: id in peers && id != peer.id ==>
        peers[id].written == old(peers[id].written) +
          Heard(id, peer.id, if entries != [] && mode.FullBroadcast? then NoticesOf(methodName, entries) else [])
      ensures entries == [] <==> peers.Keys - {peer.id} == {}
    {
      entries := DispatchFanOut(peer.id, methodName, params, remote);
      ReportFanOut(peer, reqID, mode, methodName, entries);
    }

    /** routePeerRequest for a request that names a peer. */
    method RouteUnicast(peer: ServerPeer, reqID: string, hints: Hints, methodName: string, params: Params,
                        remote: (string, string, Params) -> InvokeResult)
      requires Filed() && (peer.id in peers ==> peers[peer.id] == peer)
      modifies peer`written, set id | id in peers :: peers[id]`written
      ensures var r := remote(hints.target, methodName, params);
        var known := hints.target in peers;
        && peer.written == old(peer.written) +
             (if HasID(reqID) then [Respond(reqID, if known then RelayVerdict(r) else PeerNotFound(hints.target))] else [])
        && forall id :: id in peers && id != peer.id ==>
             peers[id].written == old(peers[id].written) + Heard(id, peer.id,
               if known && hints.mode.BroadcastResponse? && r.Ok? then [NoticeOf(methodName, Entry(hints.target, r))] else [])
    {
      var target := hints.target;
      if target !in peers {
        Answer(peer, reqID, PeerNotFound(target));
        return;
      }
      var result := remote(target, methodName, params);
      if result.Err? {
        Answer(peer, reqID, Error(ToResponseError(result.err)));
        return;
      }
      AnnounceAndAnswer(peer, reqID,
                        if hints.mode.BroadcastResponse? then [NoticeOf(methodName, Entry(target, result))] else [],
                        Result(Obj(result.value)));
    }

    /** The part of handlePeerRequest that runs the server's own handler. */
    method ServeLocally(peer: ServerPeer, reqID: string, methodName: string, params: Params, interrupted: bool)
      modifies peer`written
      ensures var v := LocalVerdict(handlers, methodName, params, interrupted);
        peer.written == old(peer.written) + if HasID(reqID) && v.Some? then [Respond(reqID, v.value)] else []
    {
      if methodName !in handlers {
        Answer(peer, reqID, NotFoundFault(methodName));
        return;
      }
      var outcome := if interrupted then Failed(GoError(true, false, None, "context canceled"))
                     else handlers[methodName](params);
      match outcome {
        case Failed(err) =>
          if err.canceled || err.deadline {
            return;
          }
          Answer(peer, reqID, if err.rpc.Some? then Error(err.rpc.value) else InternalFault);
        case Unencodable =>
          Answer(peer, reqID, InternalFault);
        case Returned(result) =>
          Answer(peer, reqID, Result(MarshalPeerResult(result)));
      }
    }

    /** handlePeerRequest up to the point where a handler, a peer or the peer
        table comes in. */
    method Classify(msg: Message) returns (route: Route)
      ensures route == ServerRoute(msg)
    {
      if msg.jsonrpc != VERSION {
        return Route.Answer(Fault(INVALID_REQUEST, "invalid request"));
      }
      var name := TrimSpace(msg.methodName);
      if name == "" {
        return Route.Answer(Fault(INVALID_REQUEST, "invalid request"));
      }
      if name == HEARTBEAT {
        return Route.Answer(Result(Obj(map[])));
      }
      if name == LIST_PEERS {
        return ListPeers;
      }
      var params := DecodeParams(msg.params);
      if params.None? {
        return Route.Answer(Fault(INVALID_PARAMS, "params must be an object"));
      }
      var parsed := ParseRouteHints(name, params.value);
      if parsed.Rejected? {
        return Route.Answer(Error(parsed.err));
      }
      var p := parsed.parsed;
      if p.fanOut {
        return FanOut(p.hints.mode, p.methodName, p.cleaned);
      }
      if p.hints.target != "" {
        return Unicast(p.hints.target, p.hints.mode, p.methodName, p.cleaned);
      }
      return Local(p.methodName, p.cleaned);
    }

    /** routePeerRequest for a request that is relayed. */
    method RoutePeerRequest(peer: ServerPeer, reqID: string, route: Route,
                            remote: (string, string, Params) -> InvokeResult, interrupted: bool)
      returns (env: Surroundings)
      requires Filed() && (peer.id in peers ==> peers[peer.id] == peer)
      requires route.Unicast? || route.FanOut?
      modifies peer`written, set id | id in peers :: peers[id]`written
      ensures env == Surroundings(handlers, [], peers.Keys, remote, interrupted, env.entries)
      ensures route.FanOut? ==> EntriesComplete(env, peer.id, route.methodName, route.params)
      ensures peer.written == old(peer.written) + RepliesOn(env, peer.id, reqID, route)
      ensures forall id :: id in peers && id != peer.id ==>
        peers[id].written == old(peers[id].written) + Heard(id, peer.id, Announced(env, peer.id, route))
    {
      env := Surroundings(handlers, [], peers.Keys, remote, interrupted, []);
      if route.Unicast? {
        RouteUnicast(peer, reqID, Hints(route.target, route.mode), route.methodName, route.params, remote);
      } else {
        var entries := RouteFanOut(peer, reqID, route.mode, route.methodName, route.params, remote);
        env := env.(entries := entries);
      }
    }

    /** The rest of handlePeerRequest: the hub answers on its own. */
    method AnswerAlone(peer: ServerPeer, reqID: string, route: Route, interrupted: bool,
                       remote: (string, string, Params) -> InvokeResult)
      returns (env: Surroundings)
      requires route.Answer? || route.ListPeers? || route.Local?
      modifies peer`written
      ensures env == Surroundings(handlers, env.listed, peers.Keys, remote, interrupted, [])
      ensures route.ListPeers? ==> EachOnce(env.listed, peers.Keys)
      ensures peer.written == old(peer.written) + RepliesOn(env, peer.id, reqID, route)
    {
      env := Surroundings(handlers, [], peers.Keys, remote, interrupted, []);
      match route {
        case Answer(v) =>
          Answer(peer, reqID, v);
        case Local(name, params) =>
          ServeLocally(peer, reqID, name, params, interrupted);
        case ListPeers =>
          var ids := ListPeerIDs();
          env := env.(listed := ids);
          Answer(peer, reqID, PeersVerdict(ids));
      }
    }

    /** handlePeerRequest, the results of calls to peers given by `remote`: the
        caller is sent the reply that Dispatch.dfy defines and nothing else,
        every other peer its notifications and nothing else. */
    method HandlePeerRequest(peer: ServerPeer, msg: Message,
                             remote: (string, string, Params) -> InvokeResult, interrupted: bool)
      returns (env: Surroundings)
      requires Filed() && (peer.id in peers ==> peers[peer.id] == peer)
      modifies peer`written, set id | id in peers :: peers[id]`written
      ensures env == Surroundings(handlers, env.listed, peers.Keys, remote, interrupted, env.entries)
      ensures ServerRoute(msg).ListPeers? ==> EachOnce(env.listed, peers.Keys)
      ensures ServerRoute(msg).FanOut? ==>
        EntriesComplete(env, peer.id, ServerRoute(msg).methodName, ServerRoute(msg).params)
      ensures peer.written == old(peer.written) +
        match ServerReply(env, peer.id, msg) case None => [] case Some(reply) => [reply]
      ensures forall id :: id in peers && id != peer.id ==>
        peers[id].written == old(peers[id].written) + Heard(id, peer.id, Announced(env, peer.id, ServerRoute(msg)))
    {
      var route := Classify(msg);
      if route.Unicast? || route.FanOut? {
        env := RoutePeerRequest(peer, msg.id, route, remote, interrupted);
      } else {
        env := AnswerAlone(peer, msg.id, route, interrupted, remote);
      }
    }

    /** One turn of handleWebSocket's loop, a request served in place. */
    method HandlePacket(peer: ServerPeer, p: Packet,
                        remote: (string, string, Params) -> InvokeResult, interrupted: bool)
      returns (env: Surroundings)
      requires Filed() && peer.Valid() && (peer.id in peers ==> peers[peer.id] == peer)
      modifies peer`written, peer.pending.entries.Values, set id | id in peers :: peers[id]`written
      ensures env == Surroundings(handlers, env.listed, peers.Keys, remote, interrupted, env.entries)
      ensures peer.written == old(peer.written) +
        match HubWrittenFor(env, peer.id, p) case None => [] case Some(reply) => [reply]
      ensures peer.Valid() && peer.pending.entries == old(peer.pending.entries)
      ensures forall k :: k in peer.pending.entries ==>
        peer.pending.entries[k].content == AfterAnswer(old(peer.pending.entries[k].content), AnswerIn(p, k))
      ensures var action := ReadLoopAction(p);
        && (action.Serve? && ServerRoute(action.msg).ListPeers? ==> EachOnce(env.listed, peers.Keys))
        && (action.Serve? && ServerRoute(action.msg).FanOut? ==>
              EntriesComplete(env, peer.id, ServerRoute(action.msg).methodName, ServerRoute(action.msg).params))
        && forall id :: id in peers && id != peer.id ==>
             peers[id].written == old(peers[id].written) +
               if action.Serve? then Heard(id, peer.id, Announced(env, peer.id, ServerRoute(action.msg))) else []
    {
      env := Surroundings(handlers, [], peers.Keys, remote, interrupted, []);
      match ReadLoopAction(p) {
        case Ignore =>
        case Reply(msg) => WritePeer(peer, msg);
        case Serve(msg) => env := HandlePeerRequest(peer, msg, remote, interrupted);
        case Resolve(msg) => HandlePeerResponse(peer, msg);
      }
    }

    /** peersResult, in no particular order. */
    method ListPeerIDs() returns (ids: seq<string>)
      ensures EachOnce(ids, peers.Keys)
    {
      ids := [];
      var left := peers.Keys;
      while left != {}
        invariant left <= peers.Keys && EachOnce(ids, peers.Keys - left)
        decreases left
      {
        var id :| id in left;
        left := left - {id};
        ids := ids + [id];
      }
    }
  }
}
