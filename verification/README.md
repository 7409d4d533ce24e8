# Holon-RPC: a verified model of the runtime, the routing hub and the web gateway

Holon-RPC is JSON-RPC 2.0 over connections that come and go. Both ends may
call: a client invokes the server, the server invokes its clients, and the
server is also a hub that relays a client's call to one other client (`_peer`),
to all of them (a method that starts with `*.`), and tells the others about the
answers (`_routing`). A second implementation of the server's end,
`WebBridge`, serves browsers.

This project models the Go packages `pkg/holonrpc` and `pkg/transport`
(`wsweb.go`) in Dafny and proves what holds of them. There are three layers,
tied together by shared definitions.

**Values.** `Text`, `RpcTypes`, `PeerNames`, `RouteHints` and `Dispatch` hold
the envelope, the id codecs, the hint parser and the reference definitions of
what each endpoint answers. JSON is an algebraic datatype, handlers are
functions from params to an outcome, a Go error is described by what
`errors.Is` and `errors.As` say about it. `WireFormat` and `Conformance` write
out, in the protocol's own literals, what each end must write and read, and hold
the reference definitions to that.

**State.** `Pending`, `ClientRuntime`, `ServerRuntime` and `WebBridge` have the
classes whose fields the Go code mutates. A region under a lock is a method,
proved against the reference definitions of the other layers: `HandleRequest`
writes `Dispatch.ClientReply`, `Detach` changes the fields as `Lifecycle.Drop`
does, and so on.

**Runs.** Four labelled transition systems cover the interleavings. A step is
a region that the Go code runs under one lock, or one channel operation.

- `Network` is the whole system: any number of clients, the hub, any number of
  foreign peers that write whatever they like, calls, frames, request
  goroutines, deliveries and completions in any order, connections that open
  and close at any time. `Provenance`, `NetworkSteps` and `NetworkTasks` carry
  one invariant through every step: where each frame, task, delivery and
  result comes from. `NetworkTheorems`, `OneReply`, `FullBroadcast`,
  `Forwarding`, `Quiescence` and `Completion` draw the conclusions.
- `Lifecycle` is one client's connection machine: any number of threads in
  `Connect` and `ConnectWithReconnect`, read loops, reconnect loops, `Close`,
  and callers that hold a connection.
- `FanOut` is the worker group of one fan-out, and `ConnectQueue` the bounded queue
  of connect events. Beside them `Backoff` has the arithmetic of reconnect delays.

## Where the code promises less than one might think

- AGENT.md:398-399 says that calls pending during a disconnection fail with
  UNAVAILABLE. The code cancels the connection's context before it fails the
  pending table, so such a call may return the plain "connection closed" error
  instead: `Lifecycle.DisconnectRacesWithPending`.
- AGENT.md:395-397 lists the back-off wait before the reconnection. The code
  dials at once and waits only after a dial that failed: `Backoff.Redial`.
- `Connect` looks at `closed` again before it installs a connection, but not at
  the connection already there. `Lifecycle.AbandonsExactlyWhenInstallingOver`
  shows that a run leaves a live connection behind if and only if `Connect`
  installs over another one in it. Without such a step no waiting caller is
  stranded (`Lifecycle.NoStrandedCaller`); after one, every Invoke that waits on
  the overwritten connection is (`Lifecycle.InstallingOverStrands`): no context
  ends its wait any more, and no step does until the pending table is failed,
  because another connection ends or the client is closed, or until its own
  context ends. `Lifecycle.OverlappingDialsCanStrand` gives a reachable state.
- types.go:36-38 promises that a handler's nil is treated as an empty object. The
  client writes `{}`, but the hub writes `null`, because a nil map inside an
  interface value is not a nil interface (server.go:557-558, routing.go:263-266).
  An Invoke on the other side reads both as the empty object:
  `Dispatch.NilResultOnTheWire`.
- The hub ignores binary frames, the bridge decodes them like any other. They
  agree on a binary frame exactly when its content asks for no answer:
  `WebBridge.DispatchersAgreeOnOthers`.
- Section 5 of JSON-RPC 2.0 wants a response to every request. A server handler
  that ends in cancellation or a deadline gets none: `Dispatch.ServerRepliesOnce`
  has the exact condition. A `WebBridge` handler that returns nil gets a reply
  with neither result nor error, and one whose result is not JSON a reply
  without an id: `WebBridge.BridgeRepliesOnce`.
- A blank string id marks a request for the hub and a notification for the
  bridge: `WebBridge.DispatchersAgreeOnRequests` proves that they agree exactly
  when the id is not blank.
- Parsing the hub's cleaned request again is not always the identity: a doubled
  `*.` prefix is stripped only once (`RouteHints.ReparseIsIdentity`,
  `RouteHints.DoubledPrefixIsStrippedOnce`).

## Model

| member | source | states |
|---|---|---|
| Text.TrimKeepsCore | pkg/holonrpc/routing.go:30 | trimming removes white space at the two ends and nothing else |
| Text.ValueOfDecimal | pkg/holonrpc/client.go:245 | the decimal text of a counter value reads back as that value |
| RpcTypes.UnescapeEscape | pkg/holonrpc/types.go:70-73 | decoding what the encoder writes inside a string literal gives back every string, control characters, quotes and HTML characters included |
| RpcTypes.IdRoundTrip | pkg/holonrpc/types.go:70-97 | every textual id decodes back to itself from the wire, counts as present, and is its own pending-table key |
| RpcTypes.MakeIDInjective | pkg/holonrpc/types.go:70-73 | different ids have different wire texts |
| RpcTypes.MintedInjective | pkg/holonrpc/client.go:245-247 | ids minted from different counter values, or by different kinds of endpoint, never collide |
| RpcTypes.ServerIDPassesGate | pkg/holonrpc/client.go:534-540 | every id that Server.Invoke mints passes the client's non-null gate and its `s`-prefix gate |
| RpcTypes.ObjectRoundTrip | pkg/holonrpc/types.go:101-152 | an object written as params or as a result, by either end, is read back unchanged; nil arrives as the empty object |
| PeerNames.PeerNameInjective | pkg/holonrpc/server.go:352 | clients accepted at different counter values have different ids |
| RouteHints.ParseRouteHints | pkg/holonrpc/routing.go:29-83 | the step-by-step parser on its own copy of the map computes the declarative split of a request, with the same error for every malformed one |
| RouteHints.CleanSplit | pkg/holonrpc/routing.go:29-83 | on success the cleaned params are the input minus `_routing` and `_peer`, the method is trimmed and not empty, a target is named exactly when the hint is there, and full-broadcast comes with fan-out |
| RouteHints.ModeIsTheText | pkg/holonrpc/routing.go:40-54 | the mode is exactly what the text of `_routing` says; any other text, and a hint that is not a string, is refused with -32602 |
| RouteHints.SplitIsTheRequest | pkg/holonrpc/routing.go:56-82 | fan-out exactly with the `*.` prefix, the method is what follows it, the target is the trimmed text of `_peer` |
| RouteHints.ReparseIsIdentity | pkg/holonrpc/routing.go:29-83 | parsing the output again changes nothing and finds no hints if and only if the output method does not start with `*.` |
| RouteHints.DoubledPrefixIsStrippedOnce | pkg/holonrpc/routing.go:69-76 | an input family for which parsing again does change the request |
| Dispatch.VerdictRoundTrip | pkg/holonrpc/client.go:560-622 | what Invoke unpacks from either end's reply is the handler's own result or typed error; success arrives as success and only then |
| Dispatch.NilResultOnTheWire | pkg/holonrpc/server.go:557-559 | the hub answers with an object exactly when the handler's result is not nil, the client always; Invoke sees no difference |
| Dispatch.ServerRepliesOnce | pkg/holonrpc/server.go:419-508 | the same over every path of the server's dispatch and routing, exactly except when the server's own handler ends cancelled |
| Dispatch.MintedRequestIsServed | pkg/holonrpc/client.go:534-576 | a server-minted request always reaches the client's handler table, and its reply bears the same id |
| Dispatch.EntryJsonSays | pkg/holonrpc/routing.go:23-27 | an entry is written field by field as the protocol has it: peer, result unless empty, or error with code, message and data unless absent |
| Dispatch.EntryJsonFaithful | pkg/holonrpc/routing.go:23-27 | so an entry determines its peer, whether the call failed, and its result or error |
| Dispatch.NoticeSays | pkg/holonrpc/routing.go:96-107 | a notification is written field by field as the protocol has it, with the code, message and data of a failed call |
| Dispatch.ErrorFields | pkg/holonrpc/routing.go:279-297 | a typed error keeps code, message and data; otherwise 1 is cancelled, 4 out of time, 14 anything else |
| Conformance.NotificationsAreNotAnswered | pkg/holonrpc/types.go:75-79 | neither end answers a message whose id is missing, blank or null |
| Conformance.HubAnswersItself | pkg/holonrpc/server.go:422-442 | -32600 for a bad version or blank method, {} for the heartbeat |
| Conformance.HubListsPeers | pkg/holonrpc/server.go:444-451 | rpc.peers is answered with one object for each listed peer and no other |
| Conformance.HubRefusesParams | pkg/holonrpc/server.go:453-459 | -32602 for params that are neither an object nor null |
| Conformance.HubRefusesRouting | pkg/holonrpc/routing.go:41-52 | -32602 and its text for each unusable `_routing` |
| Conformance.HubRefusesPeer | pkg/holonrpc/routing.go:56-64 | -32602 and its text for each unusable `_peer` |
| Conformance.HubRefusesMethod | pkg/holonrpc/routing.go:69-80 | -32600 for an empty fan-out method, -32602 for full-broadcast without one |
| Conformance.HubServes | pkg/holonrpc/server.go:476-507 | every outcome of the hub's own handlers, in codes and values: result, null, typed error, -32601, -32603, or silence |
| Conformance.HubRelays | pkg/holonrpc/routing.go:117-146 | a named peer's result, its error with code, message and data, or error 5 if it is not connected |
| Conformance.HubFansOut | pkg/holonrpc/routing.go:86-115 | the list with one written-out item for each entry, or error 5 if there is nobody else |
| Conformance.HubAnnouncesAnswer | pkg/holonrpc/routing.go:136-142 | under broadcast-response, and only then, the others are told the answer, if there is one |
| Conformance.HubAnnouncesAll | pkg/holonrpc/routing.go:95-109 | under full-broadcast, and only then, they are told every answer |
| Conformance.ClientAnswersItself | pkg/holonrpc/client.go:512-532 | -32600 for a bad version or blank method, {} for the heartbeat |
| Conformance.ClientRefusesOtherIDs | pkg/holonrpc/client.go:534-540 | a request whose id is not a string starting with s is refused with -32600, whatever the handlers are |
| Conformance.ClientServes | pkg/holonrpc/client.go:542-576 | every outcome of a client handler, in codes and values |
| Conformance.ReadLoopsDo | pkg/holonrpc/client.go:318-351 | what both read loops do with each kind of frame, parse errors and bare ids included |
| Conformance.LoopsWrite | pkg/holonrpc/server.go:383-416 | what is written back for each kind of frame, on either side |
| Conformance.LoopsDeliver | pkg/holonrpc/client.go:579-604 | a frame answers a pending call exactly when it is a response whose trimmed id is its key |
| Conformance.InvokeReads | pkg/holonrpc/client.go:278-287 | what Invoke returns for each kind of response, -32600 for a wrong version, 14 for a failed table |
| Conformance.BridgeAnswersItself | pkg/transport/wsweb.go:320-354 | the bridge's -32600 and its heartbeat |
| Conformance.BridgeServes | pkg/transport/wsweb.go:356-392 | the bridge writes its handler's own result or error with the request's id, -32601 and -32603 as due |
| Conformance.BridgeAnswersOthers | pkg/transport/wsweb.go:187-233 | what the bridge writes for every other frame |
| Conformance.BridgeReads | pkg/transport/wsweb.go:396-400 | a response to the bridge with the wrong version is delivered as error -32600 |
| Pending.OneSlot.TrySend | pkg/holonrpc/client.go:600-603 | a send never blocks; the first message stays, later ones are dropped |
| Pending.PendingTable.Register | pkg/holonrpc/client.go:249-252 | a call gets an empty channel of its own under its key |
| Pending.PendingTable.Remove | pkg/holonrpc/client.go:253-257 | the deferred delete removes one key |
| Pending.PendingTable.Deliver | pkg/holonrpc/client.go:585-603 | only the channel under the key is offered the message; every other channel and the table stay |
| Pending.PendingTable.FailAll | pkg/holonrpc/client.go:654-672 | the table is swapped for an empty one and no channel of the old one is left empty |
| ClientRuntime.Client.MayDial | pkg/holonrpc/client.go:84-93 | a dial begins exactly when the client is open and not connected |
| ClientRuntime.Client.InstallDialled | pkg/holonrpc/client.go:111-122 | a closed client is left alone; otherwise the four connection fields are set together, whatever was there |
| ClientRuntime.Client.InstallRedialled | pkg/holonrpc/client.go:421-442 | the reconnect loop installs exactly when the client is open and not connected |
| ClientRuntime.Client.BeginReconnect | pkg/holonrpc/client.go:145-164 | reconnect is enabled exactly when the client is open, unconnected and has no loop |
| ClientRuntime.Client.Detach | pkg/holonrpc/client.go:354-372 | only the installed connection's onDisconnect changes fields, cancels, and names a loop to wake |
| ClientRuntime.Client.DisableReconnect | pkg/holonrpc/client.go:469-486 | the loop is taken down exactly when it is the expected one |
| ClientRuntime.Client.BeginClose | pkg/holonrpc/client.go:183-205 | the first Close takes connection, done channel and loop out of the fields; a later one changes nothing |
| ClientRuntime.Client.CurrentConn | pkg/holonrpc/client.go:295-312 | a connection is handed out exactly when open and connected; the retryable error exactly when reconnect is on |
| ClientRuntime.Client.SendRequest | pkg/holonrpc/client.go:245-276 | one request is written under a fresh minted key whose channel is empty; if the write fails the entry is gone again |
| ClientRuntime.Client.HandleRequest | pkg/holonrpc/client.go:509-577 | every branch writes what `Dispatch.ClientReply` defines, and nothing else |
| ClientRuntime.Client.HandleResponse | pkg/holonrpc/client.go:579-604 | a response, version-checked, is offered to the call under its key and to no other |
| ClientRuntime.Client.HandlePacket | pkg/holonrpc/client.go:318-351 | one turn of the read loop: what is written and which channel changes, for every packet |
| ClientRuntime.Client.ReadLoop | pkg/holonrpc/client.go:314-352 | over any packets of a connection every request is answered once, and every pending call has the first answer that came under its key |
| ServerRuntime.HeardCount | pkg/holonrpc/routing.go:95-109 | of notices about different peers, a peer other than the caller hears one about each but itself |
| ServerRuntime.FullBroadcastHeard | pkg/holonrpc/routing.go:85-109 | with n other peers each hears exactly n-1 notices, the caller none |
| ServerRuntime.Server.RegisterPeer | pkg/holonrpc/server.go:352-365 | a new peer gets an id that nobody else has and is filed under it |
| ServerRuntime.Server.AnnouncePeer | pkg/holonrpc/server.go:367-371 | the connect event is queued exactly when fewer than 32 are waiting, otherwise dropped |
| ServerRuntime.Server.TakeClient | pkg/holonrpc/server.go:135-145 | WaitForClient takes the oldest event |
| ServerRuntime.Server.TearDown | pkg/holonrpc/server.go:373-381 | the peer leaves the table, is cancelled, and every call pending at it has an answer |
| ServerRuntime.Server.TakePeers | pkg/holonrpc/server.go:247-253 | Close takes every peer once and leaves the table empty |
| ServerRuntime.Server.DismissAll | pkg/holonrpc/server.go:255-259 | after Close's loop every peer is cancelled, and every call that was pending at any of them has an answer |
| ServerRuntime.Server.ClosePeers | pkg/holonrpc/server.go:247-259 | both together: the table is empty, every peer that was in it is cancelled and every call pending at it has an answer |
| ServerRuntime.Server.SendRequest | pkg/holonrpc/server.go:278-316 | an unknown client draws no id; a known one gets one request under a fresh `s` key in its own table, and if the write fails the entry is gone again |
| ServerRuntime.Server.HandlePeerResponse | pkg/holonrpc/server.go:530-555 | only the answering peer's own table is looked at |
| ServerRuntime.Server.SnapshotPeerIDsExcluding | pkg/holonrpc/routing.go:186-198 | exactly the connected peers but the excluded one, each once |
| ServerRuntime.Server.BroadcastNotificationMany | pkg/holonrpc/routing.go:215-243 | every peer outside the excluded set gets the notification once, the excluded ones nothing |
| ServerRuntime.Server.DispatchFanOut | pkg/holonrpc/routing.go:150-184 | one entry for each peer but the caller, holding that peer's own answer |
| ServerRuntime.Server.Announce | pkg/holonrpc/routing.go:95-109 | each peer is sent the notices not about itself, the caller none |
| ServerRuntime.Server.RouteFanOut | pkg/holonrpc/routing.go:85-115 | what the caller and every other peer are sent for a fan-out, in each mode |
| ServerRuntime.Server.RoutePeerRequest | pkg/holonrpc/routing.go:85-148 | every relayed request gets the reply and causes the notifications that the reference definitions give |
| ServerRuntime.Server.RouteUnicast | pkg/holonrpc/routing.go:117-148 | what the caller and every other peer are sent for a relayed call, in each mode, failures included |
| ServerRuntime.Server.ServeLocally | pkg/holonrpc/server.go:476-508 | the server's own handlers answer as `Dispatch.LocalVerdict` says, silence on cancellation included |
| ServerRuntime.Server.Classify | pkg/holonrpc/server.go:419-469 | the branches up to routing compute `Dispatch.ServerRoute` |
| ServerRuntime.Server.HandlePeerRequest | pkg/holonrpc/server.go:419-508 | the caller is sent `Dispatch.ServerReply` and nothing else, every other peer its notifications and nothing else |
| ServerRuntime.Server.HandlePacket | pkg/holonrpc/server.go:383-416 | one turn of the hub's read loop for every packet: the reply, the delivery, what every other peer hears, and which entries a fan-out reply holds |
| ServerRuntime.Server.ListPeerIDs | pkg/holonrpc/server.go:114-120 | exactly the connected peers, each once |
| WebBridge.WebConn.SendRequest | pkg/transport/wsweb.go:238-265 | one request under a fresh `s` id, nil payload written as {}; if the write fails the entry is gone again |
| WebBridge.WebConn.HandleResponse | pkg/transport/wsweb.go:396-411 | a response, version-checked, is offered to the call under its id and to no other |
| WebBridge.WebConn.HandleRequest | pkg/transport/wsweb.go:307-393 | the response filled in field by field is the reference answer, and notifications get none |
| WebBridge.WebConn.HandlePacket | pkg/transport/wsweb.go:180-233 | one turn of the message loop for every packet |
| WebBridge.BridgeRepliesOnce | pkg/transport/wsweb.go:307-420 | a request is answered once, and properly exactly unless its handler returned nil or text that is not JSON |
| WebBridge.DispatchersAgreeOnRequests | pkg/transport/wsweb.go:307-393 | on requests that both serve with matching tables, bridge and hub give the same kind of outcome and the same code if and only if the id is absent, null or not blank |
| WebBridge.DispatchersAgreeOnOthers | pkg/transport/wsweb.go:180-233 | the same for broken frames, responses and bare ids, and for binary frames if and only if their content asks for no answer |
| Backoff.BaseSaturates | pkg/holonrpc/client.go:500-504 | the base delay never shrinks and is 30 s exactly from attempt 6 on |
| Backoff.DelayBounds | pkg/holonrpc/client.go:500-507 | every delay lies between the base and 1.1 times the base |
| Backoff.TotalClosedForm | pkg/holonrpc/client.go:49-54 | the bases of n attempts add up to 500(2^n - 1) ms, and to 31.5 s + 30 s (n - 6) beyond the sixth |
| Backoff.Redial | pkg/holonrpc/client.go:395-464 | the dialling loop stops at the first success, connection, close or cancellation, and n waits sat out take between S(n) and 1.1 S(n) |
| ConnectQueue.EventsConserved | pkg/holonrpc/server.go:352-371 | in every run each registered id is in exactly one of four places, delivery is first in first out, at most 32 wait |
| ConnectQueue.DropsOnlyWhenFull | pkg/holonrpc/server.go:367-371 | an id is dropped exactly when one is offered while 32 wait |
| FanOut.SendNeverBlocks | pkg/holonrpc/routing.go:156-172 | in every run, a worker ready to send finds room in the results channel |
| FanOut.NoDeadlock | pkg/holonrpc/routing.go:156-183 | until the fan-out is done, some call has yet to return or a step of its own is enabled |
| FanOut.StepLowersRank | pkg/holonrpc/routing.go:160-182 | every step, in any order, lowers a rank, so the wait ends once the calls do |
| FanOut.EntriesArePermutation | pkg/holonrpc/routing.go:150-184 | when done, the entries are a permutation of the targets' own answers, one for each |
| Lifecycle.NoLostWakeUp | pkg/holonrpc/client.go:354-467 | in every reachable state in which the client ought to reconnect, a wake-up is queued, promised or acted upon, and a step towards the next dial is enabled |
| Lifecycle.FailedStartLeavesNoLoop | pkg/holonrpc/client.go:166-172 | once ConnectWithReconnect has returned, its loop is still the client's only if a connection was installed: a first dial that fails takes its loop down |
| Lifecycle.StepsAreRegions | pkg/holonrpc/client.go:84-173 | each step of the life cycle changes the fields as the client's method for that region does, and dials begin only on an open, unconnected client |
| Lifecycle.ClosedIsAbsorbing | pkg/holonrpc/client.go:183-205 | after Close, however the run goes on, nothing is installed again and no call gets a connection |
| Lifecycle.LateReaderIsHarmless | pkg/holonrpc/client.go:314-383 | in every reachable state, no step of a connection's read loop and onDisconnect, its late failing and waking included, touches another connection, nor any field while another one is installed |
| Lifecycle.InstalledEndsOnlyBy | pkg/holonrpc/client.go:354-372 | an installed connection is taken out exactly by its own onDisconnect, by Close, or by a Connect that installs over it, and cancelled on the spot by the first alone |
| Lifecycle.StaleTokenIsHarmless | pkg/holonrpc/client.go:388-405 | a wake-up left by an earlier connection sends the loop back to waiting and changes nothing else while a connection is installed |
| Lifecycle.OnlyConnectAbandons | pkg/holonrpc/client.go:111-122 | a step leaves a live connection behind if and only if it is Connect installing over another one |
| Lifecycle.AbandonsExactlyWhenInstallingOver | pkg/holonrpc/client.go:111-122 | the same over whole runs: once left behind a connection stays so, and none is left behind in any other run |
| Lifecycle.InstalledOverEmptySlot | pkg/holonrpc/client.go:421-442 | with dials that do not overlap, a connection is only ever installed over an empty slot |
| Lifecycle.RescuedExactly | pkg/holonrpc/client.go:240-292 | a waiting Invoke whose connection is gone has a step that ends its wait, or a Close about to enable it, exactly unless its connection was left behind and the pending table was not failed |
| Lifecycle.NoStrandedCaller | pkg/holonrpc/client.go:240-292 | in every run in which Connect never installs over a connection, each waiting Invoke whose connection is gone can return, registered before the table was swapped or after |
| Lifecycle.InstallingOverStrands | pkg/holonrpc/client.go:111-122 | the converse: once Connect installs over a connection, an Invoke waiting on it can only be ended by a failure of the whole pending table, in every continuation |
| Lifecycle.FailureComesFromTheTable | pkg/holonrpc/client.go:654-672 | a waiting call gets that failure exactly when it is in the table and some onDisconnect or Close fails it |
| Lifecycle.DisjointDialsNeverInstallOver | pkg/holonrpc/client.go:111-122 | dials that do not overlap are enough for the condition above |
| Lifecycle.OverlappingDialsCanStrand | pkg/holonrpc/client.go:111-122 | a reachable state with a stranded caller, in the pending table, when two calls of Connect overlap |
| Lifecycle.DisconnectRacesWithPending | pkg/holonrpc/client.go:354-376 | between the cancellation and the failing of the pending table, each waiting Invoke can already return |
| Lifecycle.AwaitedLoopCanStep | pkg/holonrpc/client.go:223-225 | while Close waits for the reconnect loop, the loop has a step that brings its end closer |
| Lifecycle.DisabledLoopCanStep | pkg/holonrpc/client.go:488-496 | the same while disableReconnect waits for the loop it took down, in every reachable state |
| Lifecycle.AwaitedLoopEnds | pkg/holonrpc/client.go:385-467 | once closed, each step of the loop brings its end closer, nothing else delays it, and three steps suffice |
| NetworkTasks.ReachableInv | pkg/holonrpc/server.go:383-508 | in every reachable state each frame, task, delivery and result has its provenance |
| NetworkTheorems.RemoteCallRefinesLocalCall | pkg/holonrpc/client.go:232-293 | an Invoke that returns a result returns what the server's handler of that method makes of that call's own params without the hints, in every run |
| NetworkTheorems.RemoteAnswer | pkg/holonrpc/client.go:278-292 | the same for errors: connection failures apart, exactly the server's verdict on the call's own request |
| NetworkTheorems.RelayAnswer | pkg/holonrpc/routing.go:117-148 | a call that names a client's connection, its own included, returns exactly that client's handler outcome on the cleaned params, result or typed error; or what the hub's own call failed with; or error 5, and then nobody of that name was connected when the request was taken up |
| NetworkTheorems.OpenPeerIsCalled | pkg/holonrpc/routing.go:117-128 | whatever other peers there are, naming an open connection makes exactly one call, to it, with the dispatched method and params |
| NetworkTheorems.AbsentPeerIsNotFound | pkg/holonrpc/routing.go:120-126 | error 5 is the answer if and only if no open connection has the name |
| NetworkTheorems.GonePeerIsNotFound | pkg/holonrpc/server.go:373-381 | a connection that was torn down cannot be named any more |
| NetworkTheorems.ServerCallAnswer | pkg/holonrpc/server.go:270-333 | a call of the server's own returns exactly the client's handler outcome, or a failure of the connection |
| NetworkTheorems.ReplyTellsOutcomes | pkg/holonrpc/routing.go:85-148 | the reply to a relay holds, field by field, what its calls returned, in order of arrival for a fan-out |
| NetworkTheorems.RelayRefinesPeerCall | pkg/holonrpc/routing.go:128-145 | in particular a result is the named client's own handler's |
| NetworkTheorems.TwoHopsAreOne | pkg/holonrpc/routing.go:279-297 | what a caller makes of a relayed answer is what it would make of the answer itself, errors included |
| NetworkTheorems.FanOutRefinesPeerCalls | pkg/holonrpc/routing.go:150-184 | a fan-out that returns a result returns the whole list: one written-out item for each peer connected when the request was taken up, none the caller's, each that peer's own answer or failure |
| NetworkTheorems.ListingIsWhoWasConnected | pkg/holonrpc/server.go:444-451 | a call of rpc.peers returns one object for each peer connected when the request was taken up, and no other |
| NetworkTheorems.LogIsWhoWasConnected | pkg/holonrpc/server.go:419-421 | what the model notes of a request is exactly who was connected when the hub took it up |
| NetworkTheorems.FanOutAsksEveryOtherPeer | pkg/holonrpc/routing.go:150-174 | a fan-out starts exactly one call for each open connection but the caller's, and waits for these |
| NetworkTheorems.OnlyTheRightPeer | pkg/holonrpc/server.go:530-555 | a delivered frame reaches a call exactly when it is a response with the key of a call in progress, which then is on that very connection; with the wrong version it can only bring a -32600 error |
| NetworkTheorems.FirstAnswerWins | pkg/holonrpc/client.go:600-603 | over any further run a call keeps its first answer and its result |
| NetworkTheorems.KeysNeverReused | pkg/holonrpc/client.go:245-252 | two calls of one origin never share a key, across reconnects and table swaps |
| NetworkTheorems.PendingHygiene | pkg/holonrpc/client.go:249-257 | every pending key is that of a call in progress, different peers' tables share no key, and the tables are empty once all calls have returned |
| NetworkTheorems.DeleteOnlyOwn | pkg/holonrpc/client.go:253-257 | a deferred delete never removes another call's entry, in whichever generation of the table |
| NetworkTheorems.FailTableFailsAll | pkg/holonrpc/server.go:587-605 | failing a table leaves none of its entries, sends each a failure, and touches no other table |
| FullBroadcast.NotesConserved | pkg/holonrpc/routing.go:215-243 | in every run with a stable peer table, the notifications written for a request and those still to be written are, in order, the ones it started with |
| FullBroadcast.CollectAnnounces | pkg/holonrpc/routing.go:95-142 | the end of a relay leaves exactly the notifications that its mode asks for: all answers, one successful answer, or none |
| FullBroadcast.FullBroadcastCounts | pkg/holonrpc/routing.go:95-109 | over every such run, whatever comes between, a full-broadcast to n peers sends n(n-1) notifications: each peer one about each other peer, in order, the caller none |
| Forwarding.FanOutForwardsOnce | pkg/holonrpc/routing.go:150-174 | over every run with a stable peer table in which no write fails, a fan-out to n peers writes exactly n requests, one to each, with the dispatched method and params |
| FullBroadcast.NotesTellOutcomes | pkg/holonrpc/routing.go:96-107 | each of these notifications says, field by field, whose answer it is and what it was: the result, or the error's code, message and data |
| FullBroadcast.BroadcastResponseCounts | pkg/holonrpc/routing.go:128-142 | over every such run, under broadcast-response every open connection but the caller's and the target's gets one notification with the target's name and result |
| Quiescence.StepLowersWeight | pkg/holonrpc/server.go:383-416 | every delivery, completion and reply lowers a weight on calls, frames, deliveries and tasks |
| Quiescence.InternalRunsEnd | pkg/holonrpc/client.go:318-351 | a run without new connections, application calls or injected frames is no longer than the weight it starts from |
| OneReply.ExactlyOneReply | pkg/holonrpc/server.go:419-508 | in every run, from the moment a client makes a call its request is exactly one of in flight, answered by one reply, or lost once (write failed, frame lost, handler cancelled), so once settled it was answered exactly once or lost |
| Completion.RemoteCallCanComplete | pkg/holonrpc/client.go:232-293 | from every state a new call can return within ten steps, with the server handler's own result or error |
| Completion.RelayedCallCanComplete | pkg/holonrpc/routing.go:117-148 | from every state a call that names any open connection of a client can return, with that client's handler's own result or error |
| Completion.NewPeerCanBeCalled | pkg/holonrpc/server.go:363-365 | a client that has just connected can be called by name at once |
| Completion.ServerCallCanComplete | pkg/holonrpc/server.go:270-333 | from every state a call of the server's own to an open connection can return within ten steps, with the client handler's outcome |

## Left out

- WebSocket, HTTP, TLS and TCP mechanics, read limits, close codes, and the subprotocol handshake: a dial succeeds or fails.
- JSON text. Only string ids are modelled as text; other raw fields are values. encoding/json compacts raw text when it echoes an id that is neither a string nor a scalar; minted ids are unaffected.
- Integer width: the call and client counters are unbounded, where the code's int64 counters would wrap after 2^63 calls.
- Float rounding in the back-off: delays are exact reals cut to whole nanoseconds; the random source is any value in [0, 0.1).
- Text of error messages beyond the fixed ones: `%q` quoting is left out, the method or peer name is inserted as it is.
- Marshal failures of call params and of error data: both are taken to be serialisable. A handler's result may be unencodable.
- Register, Unregister, Methods, ClientIDs and the sort order of `rpc.peers`: handler tables are fixed for a run and the listing is in any order.
- Server.Start, URL parsing, port binding, origin checks, OnConnect, logging and process launching.
- Wall-clock time and liveness of the network or the scheduler ("eventually reconnects"): enabledness, ranks and weights are proved instead.
- An empty peer table after Server.Close: a connection that was being accepted may still register, and nothing here says otherwise.
- A spurious failure of a call on a new connection, because the pending table is failed after the state lock is released: the network allows it at any time and no theorem excludes it.
- The unlocked reads of the receive context in the client's read loop (a data race in the code): each step reads it once.
- Network: connections open and close at any time instead of following `Lifecycle`, so what is proved holds of more runs than the code has.
- ServerRuntime.Server.HandlePeerRequest: results of calls to peers are given by a function, the peer table is stable during one request, and requests are served in place; `Network` has the interleavings.
- ClientRuntime.Client.ReadLoop: requests are served in place, where the code starts a goroutine for each; `Network` has the interleavings.
- ServerRuntime.Server.ListPeerIDs: does not sort the ids.
- ServerRuntime.Server.DispatchFanOut: results of calls to peers are given by a function and come one after another; `FanOut` has the workers and `Network` the calls.
- ServerRuntime.Server.RouteFanOut: the peer table is stable during the request, and results of calls to peers are given by a function.
- ServerRuntime.Server.RouteUnicast: the same.
- ServerRuntime.Server.RoutePeerRequest: the same.
- ServerRuntime.Server.HandlePacket: requests are served in place, as in HandlePeerRequest.
- ServerRuntime.Server.ClosePeers: the closed flag, the HTTP server and the listener of Close are not part of the model.
- ClientRuntime.Client.HandlePacket: requests are served in place, where the code starts a goroutine for each.
- WebBridge.WebConn.HandlePacket: requests are served in place, where the code starts a goroutine for each.
- Completion.RemoteCallCanComplete: says that a run exists, not that every run gets there.
- Completion.RelayedCallCanComplete: says that a run exists, not that every run gets there.
- Completion.ServerCallCanComplete: says that a run exists, not that every run gets there.
- Lifecycle.AwaitedLoopEnds: Close's wait for the read loop is not included, since it ends only when the network read does.
