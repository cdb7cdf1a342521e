# Concurrency and codec models of the pi packages

A Dafny model of the hand-written concurrency and codec code of five packages. Every `await` of the
original ends an atomic step; each step is a function on an explicit state, and the main results hold
in every state of every run, for every interleaving of steps. Classes update the same fields in place
and are proved to take exactly those steps.

- **Framing** (`packages/protocol`): the incremental frame decoder, with its header buffer and payload
  blocks, against a parser of the concatenated bytes; the message codec above it.
- **Session ownership** (`packages/server`): opening, sharing, operating on and disposing of sessions,
  and shutdown; the handshake and the snapshot broadcasts of connections.
- **Leases and requests** (`packages/client`): shared and exclusive leases over generations, and the
  table that matches responses to requests.
- **Catalog refresh** (`packages/ai`): generations and the serialised publication chain of a provider.
- **Agent loop** (`packages/agent`): turns, tool batches, queues, the event trace and the transcript the
  agent folds from it; and the proxy stream that rebuilds a message from data lines.
- **Object graphs** (`packages/server`, `packages/protocol`): conversion of possibly cyclic values to JSON.

## Files

| file | content |
|---|---|
| `Common` | options, results, concatenation |
| `FramingSpec`, `FrameDecoder`, `MessageCodec` | frames and messages |
| `SessionProtocol`, `SessionSafety`, `SessionTheorems`, `SessionListings`, `SessionIntrusions`, `SessionChanges`, `SessionProgress`, `SessionManager` | session steps, the invariant, its consequences, the listing of held sessions and where a late attach leads, what changes a session and when, how an attach succeeds, the manager class |
| `HandshakeProtocol`, `HandshakeTheorems`, `HandshakeOutcomes`, `ServerConnections`, `PiServers`, `ClientStates` | connection stages, broadcasts, the server and its parts as classes, the client's snapshots |
| `LeaseProtocol`, `LeaseSafety`, `LeaseTheorems`, `LeaseProgress` | leases of one session id, what each step does to the lease tables, whole runs, what acquiring and releasing come to |
| `LeaseDisturbances`, `LeaseRemovals`, `LeaseDisconnects` | exactly when a removal or a disconnect does harm, and runs in which it does |
| `SessionLeases`, `SessionAcquisition` | the lease tables, the handles and the client's maps as classes |
| `RequestProtocol`, `RequestOutcomes`, `ClientRequests` | requests, what becomes of each, and the client's connection as a class |
| `ModelRefresh`, `RefreshOutcomes`, `ModelRegistry`, `ModelOverlay` | refresh generations, which publications take effect, the collection class, overlays |
| `AgentTrace`, `ToolBatches`, `AgentState`, `ToolExecution`, `AgentLoop`, `AgentRuns` | events, tool calls, agent, loop, whole runs |
| `ObjectGraph`, `ObjectUnfolding`, `ObjectTrees`, `ObjectConversion` | conversion of object graphs |
| `ProxyLines`, `ProxyContent`, `ProxyStream` | data lines, content blocks, the read loop |

## Where the code does less than one expects

Each of these is stated with the exact condition under which the code does what is expected of it, and with a
run, a trace or an input at which it does not.

- A comment at `packages/server/src/sessions.ts:50-51` promises that commands reach only sessions the
  client holds. `attach` does not look at `disposing` again, so an attach that resumes after disposal has
  begun leaves an id in the connection's list that a later session of the same id inherits
  (`SessionListings.AttachKeepsListingsExactly`, `SessionIntrusions.LateAttachMayIntrude`,
  `SessionListings.LateAttachReachesForeignSession`).
- A `session_removed` event that finds an acquisition of the session in flight, or a release whose detach has not
  been rejected, leaves the lease count wrong: a handle can then outlive a disconnect, and two exclusive handles can
  be active together. Where it finds neither it does no harm (`LeaseDisturbances.RemovalIsCalmExactly`,
  `LeaseRemovals`).
- The messages of one chunk are handled without a pause (`packages/client/src/connection.ts:160-163`), so a
  message that answers an attach may be followed at once by one that ends the connection. The acquisition goes
  on after the tables were emptied and creates a handle that nothing counts; with the next attach two exclusive
  handles are active. An answered create does the like if an acquisition of the session is in flight, or a release
  whose detach has succeeded. In every other state a disconnect does no harm
  (`LeaseDisturbances.DisconnectIsCalmExactly`, `LeaseDisconnects`).
- A broadcast whose models cannot be listed has already moved the revision on; the clients it was meant for do
  not hear of that revision (`HandshakeTheorems.CurrentRevisionArrives`, `HandshakeTheorems.FailedBroadcastIsMissed`).
- `pendingToolCalls` is a set of ids: where a call of a parallel batch has the id of an earlier one that is still
  being executed, the first to end hides the other (`AgentTrace.PendingCallsExactly`, `AgentRuns.RunAgentLoop`,
  `AgentTrace.SharedIdHidesCall`).
- `sanitizeProtocolDetails` throws on an invalid date (`ObjectUnfolding.SanitizeThrowsExactly`,
  `ObjectUnfolding.InvalidDateThrows`).

## Model

| member | source | states |
|---|---|---|
| `FramingSpec.DecodeEncodeLength` | packages/protocol/src/framing.ts:36-40 | the four header bytes written for a length are read back as that length |
| `FramingSpec.EncodeDecodeLength` | packages/protocol/src/framing.ts:96-97 | any four header bytes are the ones written for the length they denote |
| `FramingSpec.ParseFrames` | packages/protocol/src/framing.ts:29-43 | the encoded frames of payloads within the limit, followed by an incomplete frame, parse to just those payloads and leave just that remainder |
| `FramingSpec.ParseIsTheDecomposition` | packages/protocol/src/framing.ts:86-151 | a byte string parses to payloads and a remainder if and only if it is the concatenation of their frames and an incomplete frame |
| `FramingSpec.ParseDecomposes` | packages/protocol/src/framing.ts:86-151 | every byte string without an over-limit header is such a concatenation |
| `FramingSpec.ParseFailsExactly` | packages/protocol/src/framing.ts:96-101 | parsing fails if and only if after some whole frames there is a complete header beyond the limit |
| `FramingSpec.ParseInTwo` | packages/protocol/src/framing.ts:79-152 | parsing a text in two parts gives the payloads of the first part and then those of the remainder with the second |
| `FramingSpec.ChunkIndependence` | packages/protocol/src/framing.ts:79-152 | on streams that do not fail, output and residual state of a sequence of pushes depend on the concatenated bytes only |
| `FramingSpec.FailingPush` | packages/protocol/src/framing.ts:99-101 | the push that fails is the one that completes the first over-limit header, and only that one |
| `FramingSpec.RoundTrip` | packages/protocol/src/framing.ts:30-43 | encoded frames cut into chunks in any way, empty ones included, come back as exactly the payloads with nothing left over |
| `FrameDecoding.ResolveMaxFrameLength` | packages/protocol/src/framing.ts:21-27 | the limit is the given one, or the default, and anything outside the unsigned 32-bit range is refused |
| `FrameDecoding.EncodeFrame` | packages/protocol/src/framing.ts:30-43 | a payload within the unsigned 32-bit length becomes its frame, a longer one is refused |
| `FrameDecoding.OneFrameExactly` | packages/protocol/src/framing.ts:46-57 | the check passes if and only if the bytes are the frame of one payload within the limit |
| `FrameDecoding.AssertCompleteFrame` | packages/protocol/src/framing.ts:46-57 | the length check reports which of its three errors applies, and none exactly for one complete frame |
| `FrameDecoding.FrameDecoder.Push` | packages/protocol/src/framing.ts:79-152 | a push returns what parsing the pending bytes with the chunk returns, keeps the remainder, or fails and latches the failure |
| `FrameDecoding.FrameDecoder.PushStep` | packages/protocol/src/framing.ts:88-150 | one round of the outer loop consumes part of the chunk and yields the frames that part completes |
| `FrameDecoding.FrameDecoder.ReadHeader` | packages/protocol/src/framing.ts:89-111 | header bytes are collected across chunks; a zero length yields an empty payload and an over-limit one fails |
| `FrameDecoding.FrameDecoder.FillBlocks` | packages/protocol/src/framing.ts:113-131 | the inner loop appends the chunk to the payload received so far, block after block |
| `FrameDecoding.FrameDecoder.AllocationBound` | packages/protocol/src/framing.ts:106-148 | in mid-frame all blocks but the last are full and their space is at most the expected length and at most the received bytes plus 65535 |
| `FrameDecoding.FrameDecoder.TakePayload` | packages/protocol/src/framing.ts:132-149 | the completed payload is the received bytes, on the one-block path as well as on the joining path |
| `FrameDecoding.FrameDecoder.JoinBlocks` | packages/protocol/src/framing.ts:136-142 | joining the blocks gives the bytes of all of them in order |
| `FrameDecoding.FrameDecoder.End` | packages/protocol/src/framing.ts:154-161 | end succeeds exactly when nothing is pending, and otherwise fails for good |
| `FrameDecoding.FrameDecoder.Fail` | packages/protocol/src/framing.ts:163-172 | failing drops what was pending and latches |
| `FrameDecoding.Receive` | packages/protocol/src/framing.ts:79-161 | what a decoder returns and whether it ends successfully is what the reference says of the whole stream; fed encoded frames, however they are cut, it returns their payloads and ends successfully |
| `MessageCodec.MessageChunkIndependence` | packages/protocol/src/codec.ts:106-121 | the messages decoded from a stream depend on the concatenated bytes, not on the chunks |
| `MessageCodec.MessageRoundTrip` | packages/protocol/src/codec.ts:62-90 | messages encoded, framed and cut into chunks in any way are decoded to the same messages |
| `MessageCodec.EncodeMessage` | packages/protocol/src/codec.ts:62-78 | an encoded message is one complete frame within the limit, and the error says why there is none |
| `MessageCodec.MessageDecoder.Push` | packages/protocol/src/codec.ts:106-121 | one invalid payload or frame fails the decoder, which then refuses every push |
| `MessageCodec.MessageDecoder.End` | packages/protocol/src/codec.ts:123-131 | ending succeeds exactly between frames on a decoder that has neither failed nor ended, and anything else fails it for good |
| `SessionTheorems.StepKeepsInv` | packages/server/src/sessions.ts:49-353 | every step of every operation keeps the invariant of session ownership |
| `SessionTheorems.ExecutionKeepsInv` | packages/server/src/sessions.ts:49-353 | the invariant holds in every state of every run |
| `SessionTheorems.AtMostOneRuntime` | packages/server/src/sessions.ts:192-254 | until shutdown empties the map, at most one runtime of a session id has a disposal that has not settled |
| `SessionTheorems.OpenOnlyWhenUncovered` | packages/server/src/sessions.ts:205-208 | a runtime is asked for only when neither the live nor the opening sessions cover the id |
| `SessionTheorems.DisposedAtMostOnce` | packages/server/src/sessions.ts:332-353 | every runtime is disposed at most once, shutdown included, and only if it was acquired |
| `SessionTheorems.ShutdownDisposesAll` | packages/server/src/sessions.ts:156-173 | after shutdown has emptied the map every acquired runtime has been disposed exactly once |
| `SessionTheorems.NoOperationAfterDisposal` | packages/server/src/sessions.ts:175-190 | from the start of its disposal a session has no operation, and none is ever started on it |
| `SessionTheorems.NoOrphanSessions` | packages/server/src/sessions.ts:328-353 | outside shutdown, a live session that is idle or terminal and has neither connections nor operations is already being disposed, unless a step that will check it is still pending |
| `SessionTheorems.ConnectionsAgree` | packages/server/src/sessions.ts:126-136 | a connection in the set of a live session is connected and lists the session |
| `SessionChanges.DisposalBeginsOnlyUnprotected` | packages/server/src/sessions.ts:332-353 | in every run disposal of a session begins only before shutdown, and only when it is live, nobody holds it, no operation runs on it, and it is idle or has failed |
| `SessionChanges.StepChanges` | packages/server/src/sessions.ts:49-353 | in every step disposal, dispose calls, holders, operations, failure and creation of each session change by the events named and by no other |
| `SessionChanges.MapsChange` | packages/server/src/sessions.ts:49-353 | a session becomes live by its snapshot and leaves by its settled disposal, and a connection lists an id from a successful attach until it detaches or disconnects |
| `SessionChanges.NothingOpensInShutdown` | packages/server/src/sessions.ts:220-222 | a creation without its runtime when shutdown begins never becomes a session |
| `SessionProgress.AttachCommandMaySucceed` | packages/server/src/sessions.ts:192-215 | from every reachable state before shutdown an attach command gets its connection into a live session by its own continuations and answers of the service, unless a failed session or a lost opening occupies the id |
| `SessionProgress.FailedIsRefused` | packages/server/src/sessions.ts:198-198 | a session that has failed takes nobody in |
| `SessionProgress.FailedDisposalFailsTheCommand` | packages/server/src/sessions.ts:199-202 | a caller that waits for a disposal that fails tries no more |
| `SessionSafety.AcquireKeeps` | packages/server/src/sessions.ts:192-215 | acquiring, in each of its branches, keeps the invariant |
| `SessionSafety.AttachKeeps` | packages/server/src/sessions.ts:308-315 | a successful attach keeps the invariant, late or not |
| `SessionSafety.DetachKeeps` | packages/server/src/sessions.ts:79-93 | a detach, with its disposal check or its broadcast first, keeps the invariant |
| `SessionSafety.DisconnectKeeps` | packages/server/src/sessions.ts:126-136 | a disconnect leaves every listed session and checks each for disposal without breaking the invariant |
| `SessionSafety.Check` | packages/server/src/sessions.ts:332-353 | the disposal check restores the invariant for the one session it looks at |
| `SessionSafety.DisposeSettledKeeps` | packages/server/src/sessions.ts:344-350 | a settled disposal removes the session only if the map still holds that very session |
| `SessionSafety.ResumeCreatorKeeps` | packages/server/src/sessions.ts:209-213 | the creator's continuation removes only its own entry of the opening sessions |
| `SessionSafety.ClearKeeps` | packages/server/src/sessions.ts:161-172 | emptying the map at shutdown disposes of exactly the sessions not already being disposed |
| `SessionListings.AttachKeepsListingsExactly` | packages/server/src/sessions.ts:308-315 | an attach keeps every listed id backed by a live session that holds the connection and is not being disposed, if and only if its own session is not already being disposed or the id was listed before |
| `SessionListings.StepKeepsBacked` | packages/server/src/sessions.ts:49-353 | no other step before the shutdown ends breaks the listings |
| `SessionListings.CommandsReachHeldSessions` | packages/server/src/sessions.ts:317-326 | in a run without late attaches, shutdown included, a command reaches only a session that holds the connection |
| `SessionListings.LateAttachReachesForeignSession` | packages/server/src/sessions.ts:308-326 | a reachable state in which a connection may operate on a session that does not hold it |
| `SessionIntrusions.LateAttachMayIntrude` | packages/server/src/sessions.ts:308-326 | from every late attach before shutdown some continuation leads to a command on a session that does not hold the connection, unless a session that failed meanwhile occupies the id and is not being disposed yet |
| `SessionIntrusions.ExecutionKeepsHeld` | packages/server/src/sessions.ts:207-213 | in every run each entry of the opening sessions has its creator still to go on, so none is left behind |
| `SessionManager.LiveSessionManager.Acquire` | packages/server/src/sessions.ts:192-215 | the branch taken and the maps after it are those of the protocol's step |
| `SessionManager.LiveSessionManager.RuntimeAcquired` | packages/server/src/sessions.ts:217-222 | an acquired runtime is snapshotted, or disposed of at once during shutdown |
| `SessionManager.LiveSessionManager.SnapshotGood` | packages/server/src/sessions.ts:225-244 | a good snapshot makes the session live and subscribed |
| `SessionManager.LiveSessionManager.SnapshotBad` | packages/server/src/sessions.ts:226-252 | a runtime with a bad snapshot is disposed of and never becomes live |
| `SessionManager.LiveSessionManager.CreationFails` | packages/server/src/sessions.ts:217-253 | the opening rejects when there is no runtime or it has been discarded |
| `SessionManager.LiveSessionManager.ResumeOpening` | packages/server/src/sessions.ts:205-206 | a caller that shared an opening goes on to attach to its session, or fails with it |
| `SessionManager.LiveSessionManager.ResumeDisposal` | packages/server/src/sessions.ts:199-202 | a caller that waited for a disposal tries again from the start |
| `SessionManager.LiveSessionManager.ResumeDetach` | packages/server/src/sessions.ts:85-88 | the disposal check comes after the broadcast, and not when it failed |
| `SessionManager.LiveSessionManager.ResumeTerminate` | packages/server/src/sessions.ts:279-281 | a terminated session is checked once its connections are gone |
| `SessionManager.LiveSessionManager.ResumeCreator` | packages/server/src/sessions.ts:209-213 | the creator removes its own opening and goes on to attach, or fails |
| `SessionManager.LiveSessionManager.ResumeAttach` | packages/server/src/sessions.ts:308-315 | both sides record the attachment, or the session is checked for disposal |
| `SessionManager.LiveSessionManager.Detach` | packages/server/src/sessions.ts:79-93 | both sides forget the attachment, and the session is checked at once or after the broadcast |
| `SessionManager.LiveSessionManager.StartOperation` | packages/server/src/sessions.ts:94-99 | an operation starts only on a listed, live, not terminating session, and is counted |
| `SessionManager.LiveSessionManager.FinishOperation` | packages/server/src/sessions.ts:186-189 | the count goes down before the disposal check |
| `SessionManager.LiveSessionManager.MaybeDispose` | packages/server/src/sessions.ts:332-345 | disposal begins outside shutdown for a live session that nobody holds, on which nothing runs, and that is idle or has failed, after unsubscribing; `SessionChanges` shows that it begins nowhere else |
| `SessionManager.LiveSessionManager.DisposeSettled` | packages/server/src/sessions.ts:344-350 | the session leaves the map if the map still holds it |
| `SessionManager.LiveSessionManager.Terminate` | packages/server/src/sessions.ts:273-282 | a terminal session unsubscribes and remembers the connections to close, once |
| `SessionManager.LiveSessionManager.Disconnect` | packages/server/src/sessions.ts:126-136 | the loops over the listed sessions have the effect of one step on all of them |
| `SessionManager.LiveSessionManager.ClearSessions` | packages/server/src/sessions.ts:161-172 | the loop over the emptied map disposes of each session not being disposed |
| `HandshakeSafety.StepKeepsInv` | packages/server/src/server.ts:189-334 | every step keeps the shape of each connection's messages and the account of revisions |
| `HandshakeTheorems.HelloComesFirst` | packages/server/src/server.ts:225-254 | on every connection of every run the first message is a hello or its refusal, and no later message is a hello |
| `HandshakeTheorems.ClientStaysConnected` | packages/client/src/connection.ts:166-210 | a client given those messages in order accepts the first one and stays connected until a protocol error is reported |
| `HandshakeTheorems.CurrentRevisionArrives` | packages/server/src/snapshots.ts:50-61 | once nothing is under way, a ready client has been sent the current revision if and only if it was not a target of a failed broadcast of that revision, even if it became ready in the middle of broadcasts |
| `HandshakeTheorems.FailedBroadcastIsMissed` | packages/server/src/snapshots.ts:55-57 | a reachable state, with nothing under way, in which a failed broadcast has left a ready client behind |
| `HandshakeOutcomes.UnsupportedIsRefused` | packages/server/src/server.ts:226-232 | in every run a client with an unsupported version is sent the refusal, if its transport is open, and nothing else ever, and never becomes ready |
| `HandshakeOutcomes.SupportedIsServed` | packages/server/src/server.ts:234-253 | a supported hello is not refused, waits for the current revision, and undisturbed leads to a hello with it and a ready connection, which catches up exactly if the revision has moved |
| `HandshakeOutcomes.HelloExactly` | packages/server/src/server.ts:234-241 | the hello is put on the connection exactly if there is a snapshot and neither shutdown, failure nor disconnect has come between |
| `HandshakeOutcomes.ReadyExactly` | packages/server/src/server.ts:242-246 | a connection becomes ready exactly when its hello has been sent in its handshake |
| `HandshakeOutcomes.FailureIsFinal` | packages/server/src/server.ts:321-334 | after a protocol failure the error stays the last message and the connection never becomes ready |
| `HandshakeOutcomes.EndIsFinal` | packages/server/src/server.ts:288-297 | a disconnected or stopped connection is sent nothing more |
| `HandshakeOutcomes.ClosedForGood` | packages/server/src/server.ts:299-300 | nor is one whose transport has closed |
| `HandshakeOutcomes.SendsExactly` | packages/server/src/server.ts:299-310 | a message to an open connection is appended if it fits and closes the transport if not, and no other connection changes |
| `HandshakeOutcomes.RevisionMovesExactly` | packages/server/src/snapshots.ts:50-55 | a revision is taken exactly by a broadcast that has targets while the server is not closing |
| `HandshakeOutcomes.ClosingForGood` | packages/server/src/server.ts:114-122 | a server that closes takes no new connection and no new revision |
| `ClientStates.ClientState.ApplyServerSnapshot` | packages/client/src/state.ts:100-104 | an older revision never replaces a newer one |
| `ClientStates.ClientState.ReceiveAll` | packages/client/src/state.ts:88-104 | whatever the order of arrival, the snapshot held has the highest revision received |
| `ClientStates.HighestIsMaximum` | packages/client/src/state.ts:100-104 | the highest revision is that of some message received, and none is higher |
| `ClientStates.ClientState.ApplySessionSnapshot` | packages/client/src/state.ts:106-113 | an older session snapshot is accepted only when forced, and attachment follows what is accepted |
| `ClientStates.ClientState.ApplyDetached` | packages/client/src/state.ts:77-84 | a detach clears the attachment and the flag of the snapshot held, whatever its revision |
| `ClientStates.ClientState.RemoveSession` | packages/client/src/state.ts:91-94 | a removed session has neither snapshot nor attachment |
| `ClientStates.ClientState.ForgetSessionSnapshot` | packages/client/src/state.ts:49-53 | the snapshot set aside is the one held, and every attached session still has its snapshot |
| `ClientStates.ClientState.RestoreSessionSnapshot` | packages/client/src/state.ts:55-57 | it is put back only where nothing newer has arrived |
| `ClientStates.ClientState.Reset` | packages/client/src/state.ts:23-27 | nothing is known after a reset |
| `ClientStates.ClientState.ClearAttachments` | packages/client/src/state.ts:29-31 | after a disconnect no session is attached, and the snapshots stay |
| `HandshakeSafety.HandshakeServes` | packages/server/src/server.ts:234-253 | the catch-up snapshot is sent exactly when the hello was behind, so a connection that becomes ready is owed nothing |
| `HandshakeSafety.BroadcastServes` | packages/server/src/snapshots.ts:50-61 | a broadcast reaches, or is still to reach, everyone who was ready when it took its revision |
| `ServerConnections.ConnectionState.DispatchMessage` | packages/server/src/server.ts:189-223 | only a first hello of a supported version begins the handshake, anything else that is out of order fails it, and requests are handled when ready; `HandshakeOutcomes` says what this leads to |
| `ServerConnections.ConnectionState.FinishGathering` | packages/server/src/server.ts:234-241 | the hello is sent only if the connection is still in its handshake |
| `ServerConnections.ConnectionState.FinishHello` | packages/server/src/server.ts:242-247 | the connection becomes ready once, and catches up if the revision has moved |
| `ServerConnections.ConnectionState.FinishCatchUp` | packages/server/src/server.ts:247-252 | the late snapshot is sent, or the protocol fails |
| `ServerConnections.ConnectionState.FailProtocol` | packages/server/src/server.ts:321-334 | the error is the last message, sent once |
| `ServerConnections.ConnectionState.SendMessage` | packages/server/src/server.ts:299-319 | nothing is sent on a closed connection, and a message that does not fit closes it |
| `ServerConnections.ReadyConnections` | packages/server/src/snapshots.ts:51-53 | the ready connections, in order: each of them and no other |
| `ServerConnections.ServerSnapshotPublisher.Begin` | packages/server/src/snapshots.ts:50-55 | the revision moves exactly when some connection is ready and the server is not closing, and the targets are the ready connections |
| `ServerConnections.ServerSnapshotPublisher.Gather` | packages/server/src/snapshots.ts:56-58 | a snapshot that cannot be put together ends the broadcast, whose revision stays taken and whose targets miss it |
| `ServerConnections.ServerSnapshotPublisher.SendNext` | packages/server/src/snapshots.ts:60-60 | the next target gets the snapshot of the revision the broadcast took |
| `PiServers.PiServer.Accept` | packages/server/src/server.ts:114-144 | a connection joins the server, or is turned away when the server is closing; the invariant of the handshake holds in the server's own state after this and every other operation |
| `PiServers.PiServer.DispatchMessage` | packages/server/src/server.ts:189-223 | a message moves the whole server as the handshake protocol says, and touches its own connection only |
| `PiServers.PiServer.FinishGathering` | packages/server/src/server.ts:234-241 | so does a snapshot that was waited for |
| `PiServers.PiServer.FinishHello` | packages/server/src/server.ts:242-247 | and a hello that has been sent, which is compared with the revision of the publisher at that moment |
| `PiServers.PiServer.FinishCatchUp` | packages/server/src/server.ts:247-252 | and the snapshot that catches up |
| `PiServers.PiServer.BeginBroadcast` | packages/server/src/snapshots.ts:50-55 | a broadcast starts with just the connections of the server that are ready as its targets |
| `PiServers.PiServer.BroadcastGathered` | packages/server/src/snapshots.ts:56-58 | it goes on with its snapshot, or ends without sending anything |
| `PiServers.PiServer.SendSnapshot` | packages/server/src/snapshots.ts:60-60 | its next target gets the snapshot, and no other connection changes |
| `PiServers.PiServer.CloseServerState` | packages/server/src/server.ts:336-342 | closing stops every connection that is not disconnected, and changes nothing else |
| `PiServers.EachIsStopped` | packages/server/src/server.ts:337-342 | stopping the connections one after the other comes to stopping each of them |
| `LeaseTheorems.StepKeepsInv` | packages/client/src/client.ts:143-420 | every calm step keeps the lease tables in agreement with the acquisitions in flight and the live handles or, after a disconnect, leaves nothing that could still become a handle; a connection is established only when the continuations of the lost one have run |
| `LeaseTheorems.DisconnectOk` | packages/client/src/client.ts:328-333 | a disconnect leaves the leases in order if and only if no acquisition waits on an attach that has already succeeded and, beside an answered create, no acquisition and no release with a successful detach is in flight |
| `LeaseTheorems.GrantOutlivesLoss` | packages/client/src/client.ts:171-176 | an acquisition whose attach has succeeded goes on after the disconnect, and its handle is alive while the count is zero |
| `LeaseTheorems.LapsedDrains` | packages/client/src/client.ts:177-180 | once the continuations of a lost connection have run nothing is in flight and the tables are exact |
| `LeaseTheorems.CountIsOutstanding` | packages/client/src/client.ts:389-408 | in every run with calm removals and disconnects, in which a connection is established only after the continuations of the lost one, the lease count is at most the number of outstanding tokens and, while connected or with no continuation left to run, equal to it, and an exclusive token is then the only one |
| `LeaseTheorems.ExclusiveIsAlone` | packages/client/src/client.ts:389-401 | in such a run two handles active at the same time are both shared |
| `LeaseTheorems.DisconnectIsFinal` | packages/client/src/client.ts:410-420 | a disconnect, calm or not, that ends such a run ends every handle there is for good, whatever happens afterwards once the continuations of the lost connection have run before the next one |
| `LeaseDisturbances.DisconnectIsCalmExactly` | packages/client/src/client.ts:328-333 | after a disconnect every continuation up to the next removal or disconnect counts its live handles if and only if the disconnect was calm |
| `LeaseDisturbances.CreateOutlivesLoss` | packages/client/src/client.ts:143-147 | an answered create beside an acquisition in flight, or beside a detach that has succeeded, always has a continuation after the loss in which its handle is alive and the count is zero |
| `LeaseDisturbances.RemovalIsCalmExactly` | packages/client/src/client.ts:302-306 | after a removal every such continuation counts its live handles if and only if the removal was calm |
| `LeaseDisturbances.RemovalHarms` | packages/client/src/client.ts:410-415 | otherwise, whatever the acquisition waits for and whether or not the detach has been answered, some continuation ends with a live handle and a count of zero |
| `LeaseDisturbances.InvIsOrderly` | packages/client/src/client.ts:389-408 | as long as the leases are in order no continuation leads to a live handle that is not counted |
| `LeaseSafety.RemovedOk` | packages/client/src/client.ts:410-415 | a removal leaves the tables right, and no release that could still give a lease back of a dead handle, if and only if no acquisition is in flight and every release in flight has been rejected |
| `LeaseSafety.AcquireOk` | packages/client/src/client.ts:153-181 | an acquisition reserves before it waits and gives the reservation back when it fails |
| `LeaseSafety.ContinueAcquireOk` | packages/client/src/client.ts:159-180 | so does each of its continuations after a detach, a reconciliation and an attach |
| `LeaseSafety.ReleaseOk` | packages/client/src/client.ts:239-260 | a release gives back one lease locally, or detaches when it is the last |
| `LeaseSafety.ContinueReleaseOk` | packages/client/src/client.ts:250-275 | the end of a release, successful or not, relinquishing or not, keeps the tables right |
| `LeaseTheorems.DeadStaysDead` | packages/client/src/client.ts:222-233 | no step revives a handle that is released or of an older generation |
| `LeaseProgress.RefusedExactly` | packages/client/src/client.ts:389-401 | an acquisition is refused exactly if somebody holds the session and one of the two would be exclusive |
| `LeaseProgress.AcquisitionMaySucceed` | packages/client/src/client.ts:153-181 | an acquisition that is not refused gets its handle by its own continuations and answers of the server, whatever detach, reconciliation or attach it waits for first, if what it shares has not been rejected already |
| `LeaseProgress.AcquireSendsOnlyWhenClean` | packages/client/src/client.ts:159-169 | no attach is sent first while a detach is running or one that failed is to be made up for |
| `LeaseProgress.ContinuationSendsOnlyWhenClean` | packages/client/src/client.ts:160-169 | nor later, before the detach is over and made up for |
| `LeaseProgress.ReleaseExactly` | packages/client/src/client.ts:239-260 | a release detaches on the server exactly if its handle is the only holder, and otherwise gives one lease back |
| `LeaseProgress.ReleaseEndsExactly` | packages/client/src/client.ts:250-275 | a release gives its handle up, unless its detach failed while the handle was alive and was not to be given up |
| `LeaseProgress.ResponseExactly` | packages/client/src/client.ts:308-326 | a response settles its own request only |
| `LeaseProgress.AttachedFollows` | packages/client/src/client.ts:302-333 | the session is attached or not as the last event that speaks of it says |
| `LeaseProgress.ActiveExactly` | packages/client/src/client.ts:222-233 | a handle is active while it is in use, of the current generation, and its session is attached |
| `LeaseRemovals.UncountedHandleOutlivesDisconnect` | packages/client/src/client.ts:302-306 | a reachable state in which a handle from before a disconnect is active again |
| `LeaseRemovals.TwoExclusiveHandles` | packages/client/src/client.ts:250-252 | a reachable state with two active exclusive handles |
| `LeaseDisconnects.TwoExclusiveHandlesAfterLoss` | packages/client/src/client.ts:302-326 | a reachable state with two active exclusive handles and a count of one, without any removal |
| `LeaseDisconnects.FailureAfterLossTakesLease` | packages/client/src/client.ts:143-147 | a reachable state in which a failed acquisition has given back the lease of a create |
| `LeaseDisconnects.CountFallsBehind` | packages/client/src/client.ts:177-180 | a calm run in which, before the last continuation of a lost connection, an acquisition in flight is not counted |
| `SessionLeases.InvalidationOfTables` | packages/client/src/client.ts:410-420 | what invalidating does to the tables is what a removal and a disconnect do to the slot |
| `SessionLeases.LeaseTables.ReserveLease` | packages/client/src/client.ts:389-401 | a lease is reserved exactly when the ownership rules allow it, and no other session is touched |
| `SessionLeases.LeaseTables.GiveBack` | packages/client/src/client.ts:403-408 | one reservation is given back, and the exclusive mark only by its own token |
| `SessionLeases.LeaseTables.Invalidate` | packages/client/src/client.ts:410-415 | the tables of one session are emptied and its generation moves on |
| `SessionLeases.LeaseTables.InvalidateAll` | packages/client/src/client.ts:417-420 | just the sessions with a count are invalidated, and every cleanup that is due is forgotten |
| `SessionLeases.SessionLease.Active` | packages/client/src/client.ts:222-233 | a handle answers that it is active exactly when the protocol says so |
| `SessionLeases.SessionLease.BeginRelease` | packages/client/src/client.ts:239-260 | the outcome of the first half of a release, and when a detach request is needed |
| `SessionLeases.SessionLease.EndRelease` | packages/client/src/client.ts:250-275 | the second half leaves handle and tables as the protocol's step does |
| `SessionAcquisition.ClientSessions.AcquireSession` | packages/client/src/client.ts:153-175 | the first segment of an acquisition moves the maps of its session as the protocol does, refuses exactly when the ownership rules do, and leaves other sessions alone |
| `SessionAcquisition.ClientSessions.Reconcile` | packages/client/src/client.ts:371-387 | a cleanup that is due is sent once and shared by all who wait for it |
| `SessionAcquisition.ClientSessions.Attach` | packages/client/src/client.ts:164-176 | an attached session is granted at once, and otherwise a running attach is shared or a new one is entered, which without a connection has been rejected |
| `SessionAcquisition.ClientSessions.ContinueAcquisition` | packages/client/src/client.ts:160-180 | each continuation of an acquisition does what the protocol's step does |
| `SessionAcquisition.ClientSessions.FinishAttach` | packages/client/src/client.ts:170-180 | the attach entry goes only if it is still the one that was awaited, and a failure gives the reservation back |
| `SessionAcquisition.ClientSessions.FinishCreate` | packages/client/src/client.ts:143-147 | a create that has been answered leases its session exclusively, or fails where the ownership rules refuse |
| `SessionAcquisition.ClientSessions.LoseConnections` | packages/client/src/client.ts:328-333 | a disconnect empties the tables of every session at once and leaves acquisitions and releases in flight |
| `SessionAcquisition.ClientSessions.Release` | packages/client/src/client.ts:245-260 | a release that needs a detach records it, so that later acquisitions wait for it |
| `SessionAcquisition.ClientSessions.FinishRelease` | packages/client/src/client.ts:250-275 | its entry goes unless another release has replaced it |
| `RequestSafety.StepOk` | packages/client/src/client.ts:193-361 | one step settles only requests that were waiting or new, and resolves only by a response that has just arrived |
| `RequestSafety.RequestsConserved` | packages/client/src/client.ts:193-213 | in every state an issued request is pending or settled, never both, and pending only while the client is connected |
| `RequestSafety.SettledForGood` | packages/client/src/client.ts:302-348 | how a request or a connection attempt settled never changes afterwards |
| `RequestSafety.ResolutionHasResponse` | packages/client/src/client.ts:308-326 | a resolved request was pending when a response with its own id and command arrived on the current connection |
| `RequestOutcomes.ChunkSettles` | packages/client/src/connection.ts:160-163 | up to the first message of a chunk that is not due the first reply to each request settles it by what it says; that message ends the connection and rejects the rest, and without one the connection stays and they wait |
| `RequestOutcomes.AnswerSettles` | packages/client/src/client.ts:308-326 | over a run the first reply to a waiting request, with due messages before it, settles it for good: resolved by a result of its command, rejected by a refusal, rejected with the end of the connection by anything else |
| `RequestOutcomes.CallWaitsExactly` | packages/client/src/client.ts:193-217 | a call is issued exactly on a connected client and waits exactly if it could be encoded and sent |
| `RequestOutcomes.EndRejectsAll` | packages/client/src/client.ts:328-348 | the end of a connection rejects every waiting request and the attempt in progress |
| `RequestOutcomes.StaleIsIgnored` | packages/client/src/connection.ts:146-148 | what an older transport reports changes nothing |
| `RequestOutcomes.AttemptBegins` | packages/client/src/connection.ts:68-95 | an attempt begins exactly on a client that is neither disposed nor on a connection |
| `RequestOutcomes.FirstMessageDecides` | packages/client/src/connection.ts:166-210 | a hello and nothing else completes the handshake, and the rest of its chunk is handled as usual |
| `RequestOutcomes.DisposedForGood` | packages/client/src/client.ts:350-362 | a disposed client never has a connection again and issues nothing |
| `ClientRequests.PiClient.Request` | packages/client/src/client.ts:193-213 | a call is rejected at once, or gets an id and waits; an encoding failure rejects it and a sending failure ends the connection |
| `ClientRequests.PiClient.HandleResponse` | packages/client/src/client.ts:308-326 | unknown ids and wrong commands end the connection, a refusal rejects, a result resolves, as `RequestOutcomes.ChunkSettles` says of whole chunks |
| `ClientRequests.PiClient.RejectPendingRequests` | packages/client/src/client.ts:344-348 | every pending request is rejected and nothing else |
| `ClientRequests.PiClient.HandleMessage` | packages/client/src/connection.ts:166-210 | before the hello only the hello is accepted, after it everything but handshake messages |
| `ClientRequests.PiClient.HandleData` | packages/client/src/connection.ts:146-164 | data of an older connection changes nothing, and the messages of a chunk are handled until one ends the connection |
| `ClientRequests.PiClient.Fail` | packages/client/src/connection.ts:224-237 | the end of a connection rejects its handshake if that is open, and everything pending |
| `ClientRequests.PiClient.Connect` | packages/client/src/connection.ts:68-94 | a connection attempt has an id never used before and becomes the current one |
| `ClientRequests.PiClient.TransportLost` | packages/client/src/connection.ts:83-91 | a late failure of an older transport changes nothing |
| `ClientRequests.PiClient.Dispose` | packages/client/src/client.ts:350-361 | a disposed client is disconnected and has nothing pending |
| `ModelRefreshSafety.StepKeepsInv` | packages/ai/src/models.ts:275-452 | every step keeps the publication queue and its logs in order |
| `ModelRefreshSafety.OneAtATime` | packages/ai/src/models.ts:350-366 | a publication leaves the queue only when all before it have finished |
| `ModelRefreshSafety.GenerationsNeverDecrease` | packages/ai/src/models.ts:353-363 | neither the completed store writes nor the catalog updates ever go back to an older generation |
| `ModelRefreshSafety.NoUpdateFromEarlierRefresh` | packages/ai/src/models.ts:275-290 | after a provider was set, deleted or cleared no refresh begun before updates the catalog, whether or not it is still in flight |
| `ModelRefreshSafety.RegistrySupersedes` | packages/ai/src/models.ts:275-335 | setting, deleting and clearing supersede every earlier refresh, although clearing visits only ids with a provider or a controller |
| `ModelRefreshSafety.UpdateFollowsItsWrite` | packages/ai/src/models.ts:355-363 | an update that was to be persisted runs in the step in which its own write completes, under the current generation |
| `ModelRefreshSafety.StoreDoneOk` | packages/ai/src/models.ts:355-363 | a store mutation that completes or fails leaves the logs in order |
| `RefreshOutcomes.NothingFromAborted` | packages/ai/src/models.ts:353-363 | once a refresh is aborted it stays so, no publication of it updates the catalog, and none that waited is stored |
| `RefreshOutcomes.UpdatesExactly` | packages/ai/src/models.ts:350-366 | a step updates the catalog exactly if a publication of the newest refresh, not aborted, comes to its update |
| `RefreshOutcomes.StoresExactly` | packages/ai/src/models.ts:353-359 | a publication begins to be stored exactly if it is current in its turn, and is written exactly if the store succeeds |
| `RefreshOutcomes.AbortedBy` | packages/ai/src/models.ts:326-335 | a caller, and whatever supersedes a refresh in flight, aborts it |
| `RefreshOutcomes.AbortsNothingElse` | packages/ai/src/models.ts:326-335 | nothing else does |
| `RefreshOutcomes.BeginsNewest` | packages/ai/src/models.ts:337-342 | a refresh that begins is in flight and the newest, and supersedes all others |
| `RefreshOutcomes.RegistryFollows` | packages/ai/src/models.ts:275-290 | whether there is a provider, the end of a refresh and the end of a queue are as the registry says |
| `ModelRegistry.ModelsImpl.SupersedeProviderRefresh` | packages/ai/src/models.ts:326-335 | the generation moves on by one and the refresh in flight is aborted and forgotten |
| `ModelRegistry.ModelsImpl.SetProvider` | packages/ai/src/models.ts:275-278 | earlier refreshes are superseded before the provider is replaced |
| `ModelRegistry.ModelsImpl.DeleteProvider` | packages/ai/src/models.ts:280-283 | earlier refreshes are superseded before the provider goes |
| `ModelRegistry.ModelsImpl.ClearProviders` | packages/ai/src/models.ts:285-290 | the loop over providers and controllers supersedes what has either, and then no provider is left |
| `ModelRegistry.ModelsImpl.BeginProviderRefresh` | packages/ai/src/models.ts:337-342 | a refresh gets the next generation and its own controller |
| `ModelRegistry.ModelsImpl.EndRefresh` | packages/ai/src/models.ts:437-441 | a refresh that ends removes only its own controller |
| `ModelRegistry.ModelsImpl.PublishProviderModels` | packages/ai/src/models.ts:344-366 | a publication joins the end of its provider's queue |
| `ModelRegistry.ModelsImpl.MayStillPublish` | packages/ai/src/models.ts:353-361 | the check passes exactly for a refresh that is current and not aborted, which `RefreshOutcomes.NothingFromAborted` rests on |
| `ModelRegistry.ModelsImpl.ResumePublication` | packages/ai/src/models.ts:352-363 | in its turn a publication is refused, stored, or updates at once |
| `ModelRegistry.ModelsImpl.StoreSettled` | packages/ai/src/models.ts:355-363 | after the store answers, the update runs only if the refresh is still current |
| `ModelRegistry.ModelsImpl.ChainEnded` | packages/ai/src/models.ts:365-369 | the end of a queue is forgotten only if nothing has joined it |
| `ModelOverlay.CurrentModels` | packages/ai/src/models.ts:778-786 | a lookup finds the last dynamic model of the id or else the baseline's, the baseline keeps its places, and ids stay distinct |
| `ModelOverlay.MergeHeaders` | packages/ai/src/models.ts:244-258 | a name holds the last override spelled alike up to case, in that spelling only, or else the base's value |
| `ModelOverlay.OneSpelling` | packages/ai/src/models.ts:250-256 | an overridden header survives in one spelling |
| `ModelOverlay.SameUpToCase` | packages/ai/src/models.ts:250-256 | names are compared letter by letter without regard to case |
| `AgentTrace.FoldFollowsReading` | packages/agent/src/agent.ts:577-617 | folding any well-bracketed trace gives the old transcript and the messages read, the message being streamed, and calls that have not ended |
| `AgentTrace.LastErrorIsShown` | packages/agent/src/agent.ts:605-613 | the error shown is that of the last turn whose reply failed |
| `AgentTrace.NoErrorIsShown` | packages/agent/src/agent.ts:605-613 | without one it is what it was before |
| `AgentTrace.NothingPendingAtTurnEnd` | packages/agent/src/agent.ts:594-616 | no tool call is pending where a turn or the run ends, whatever the ids |
| `AgentTrace.PendingCallsExactly` | packages/agent/src/agent.ts:594-606 | the pending calls are the started and not ended ones after every event if and only if no call begins under an id still open |
| `AgentTrace.SharedIdHidesCall` | packages/agent/src/agent.ts:601-606 | after a reply with two calls of one id, started together as the parallel batch does, the end of one leaves the other open and none pending |
| `AgentTrace.BrokenStaysBroken` | packages/agent/src/agent-loop.ts:167-297 | a trace is well bracketed only if every prefix is |
| `ToolBatches.ResultsAnswerPrefix` | packages/agent/src/agent-loop.ts:467-595 | results are in source order and answer a prefix of the calls, a proper one only if the signal was aborted |
| `ToolBatches.WithoutAbortAllHandled` | packages/agent/src/agent-loop.ts:513-515 | without an abort every call is answered |
| `ToolBatches.ExecutedOnlyWhenCleared` | packages/agent/src/agent-loop.ts:641-712 | a tool is executed exactly when it exists, its arguments are valid and neither the signal nor the hook stops it; a refusal ends the batch only if the hook asks for it |
| `ToolBatches.OutcomeExactly` | packages/agent/src/agent-loop.ts:715-819 | content, error flag and request to terminate of a call in terms of what the tool and the hooks did |
| `ToolBatches.TruncatedCallsFail` | packages/agent/src/agent-loop.ts:408-435 | each call of a reply that was cut off is answered by a failure of its own |
| `ToolExecution.FailToolCallsFromTruncatedMessage` | packages/agent/src/agent-loop.ts:408-435 | the calls of a message that was cut off all fail, in order, and never end the run |
| `ToolExecution.ExecuteToolCallsSequential` | packages/agent/src/agent-loop.ts:467-522 | the results and the terminate flag are those of the handled calls, and the events are bracketed call by call |
| `ToolExecution.ExecuteToolCallsParallel` | packages/agent/src/agent-loop.ts:525-595 | for every order of progress and completion the results and the flag are the same as in sequence, every call that starts ends, and ids clash if and only if a handled call has the id of an earlier one that passed the checks |
| `ToolExecution.StartAll` | packages/agent/src/agent-loop.ts:537-578 | calls start in source order, refused ones end at once, those being executed are just the open ones, and a call begins under an open id exactly when an earlier call with its id passed the checks |
| `ToolExecution.FinishAll` | packages/agent/src/agent-loop.ts:581-583 | whatever the completion order, every open call ends once and each result is kept at its own place |
| `ToolExecution.EmitResults` | packages/agent/src/agent-loop.ts:584-594 | the result messages are emitted in source order, each as one message pair |
| `AgentState.PendingMessageQueue.Drain` | packages/agent/src/agent.ts:151-164 | a drain takes all messages or the first one, in order, and loses none |
| `AgentState.PendingMessageQueue.Enqueue` | packages/agent/src/agent.ts:143-145 | a message joins the end of the queue |
| `AgentState.PendingMessageQueue.Clear` | packages/agent/src/agent.ts:166-168 | a cleared queue is empty |
| `AgentState.Agent.ProcessEvents` | packages/agent/src/agent.ts:577-617 | the state stays the fold of the events of the run |
| `AgentState.Agent.FinishRun` | packages/agent/src/agent.ts:562-568 | a finished run clears the streaming message and the pending calls and leaves the transcript and the error message |
| `AgentLoop.StreamAssistantResponse` | packages/agent/src/agent-loop.ts:304-398 | whatever the stream, the context gains exactly the final message, and the events are one message pair with an update for each partial reply inside |
| `AgentLoop.PlayTurn` | packages/agent/src/agent-loop.ts:190-243 | a turn adds the injected messages, the reply and its results to context, new messages and transcript alike |
| `AgentLoop.PlayRound` | packages/agent/src/agent-loop.ts:190-281 | a round ends the run exactly on an error, an abort or a stop request, and otherwise polls without losing a message |
| `AgentLoop.RunLoop` | packages/agent/src/agent-loop.ts:167-297 | the run goes on after a turn only if it neither failed nor was told to stop and its results or a message call for another, and ends only after one that did or when nothing calls for more and both queues were found empty; on every exit the new messages are those of the turns played, the trace is well bracketed, both queues are conserved, the context is its base and the messages since, and ids clash exactly if they do in some parallel batch that was played |
| `AgentLoop.InnerLoop` | packages/agent/src/agent-loop.ts:190-243 | the inner loop stops only where the run is over, the scripts are, or neither results nor steering messages call for a turn |
| `AgentLoop.WhyItGoesOn` | packages/agent/src/agent-loop.ts:223-258 | in terms of the reply, its calls and what was injected, why another turn was played |
| `AgentLoop.WhyItEnds` | packages/agent/src/agent-loop.ts:213-281 | and why none was |
| `AgentLoop.MoreExactly` | packages/agent/src/agent-loop.ts:226-236 | another turn is called for exactly if the reply did not fail and calls tools, and was cut off or has a handled call that does not ask to end the run |
| `AgentLoop.ClashesExactly` | packages/agent/src/agent-loop.ts:533-578 | ids clash in a turn exactly if its calls run in parallel and a handled one has the id of an earlier one that nothing keeps from being executed |
| `AgentLoop.LastReplacementCounts` | packages/agent/src/agent-loop.ts:246-256 | the context is that of the last replacement by a turn that did not fail |
| `AgentLoop.PartialsAreShown` | packages/agent/src/agent-loop.ts:330-398 | once a reply has started each partial reply is shown in order, and then the final one |
| `AgentLoop.DistinctNeverClash` | packages/agent/src/agent-loop.ts:533-578 | they never do when no reply uses an id twice |
| `AgentRuns.RunAgentLoop` | packages/agent/src/agent-loop.ts:103-153 | so does every run from its prompts on; unless the context is replaced it is the old transcript and the new messages, and the pending calls are right after every event if and only if no parallel batch that was played has a call under the id of an earlier one still being executed |
| `AgentRuns.RunWithLifecycle` | packages/agent/src/agent.ts:516-540 | the agent's transcript after a run is the old one and the messages the loop returns |
| `AgentRuns.Prompt` | packages/agent/src/agent.ts:368-377 | a prompt is refused while a run is active, and otherwise goes on and ends with reason, adds its messages and those of the turns played, and accounts for every queued message |
| `AgentRuns.Continue` | packages/agent/src/agent.ts:381-410 | which of its refusals applies and when, and that queued messages, steering before follow-ups, become the prompts of a run that goes on and ends with reason |
| `ObjectGraph.FailsExactly` | packages/server/src/protocol.ts:145-166 | the conversion fails if and only if some path from the root repeats an object or reaches an unsupported value |
| `ObjectGraph.ToJsonAll` | packages/server/src/protocol.ts:159-161 | children are converted one by one, and a refusal is that of some child |
| `ObjectGraph.ReasonExactly` | packages/server/src/protocol.ts:146-155 | which of its reasons a refusal has |
| `ObjectUnfolding.ConvertedIsUnfolding` | packages/server/src/protocol.ts:157-162 | otherwise the result is the tree unfolding of the value |
| `ObjectUnfolding.UnfoldingIsUnique` | packages/server/src/protocol.ts:157-162 | which is determined by the value |
| `ObjectUnfolding.SanitizeAgreesWithToJson` | packages/server/src/protocol.ts:169-189 | sanitizing is the identity on what the strict conversion accepts |
| `ObjectUnfolding.SanitizeKeepsTrees` | packages/server/src/protocol.ts:169-189 | and on every value that has an unfolding |
| `ObjectUnfolding.SanitizeIsIdempotent` | packages/server/src/protocol.ts:169-189 | sanitizing a sanitized value again, wherever it lies in memory, changes nothing, and the codec accepts it |
| `ObjectUnfolding.SanitizedLeaves` | packages/server/src/protocol.ts:170-177 | what stands for numbers, dates and values that JSON has no form for, and for an object met again |
| `ObjectUnfolding.SanitizedChildren` | packages/server/src/protocol.ts:180-186 | an array keeps its length with null for what is dropped, and a record loses just the dropped entries |
| `ObjectUnfolding.SanitizeThrowsExactly` | packages/server/src/protocol.ts:174-174 | sanitizing throws if and only if an invalid date can be reached |
| `ObjectUnfolding.InvalidDateThrows` | packages/server/src/protocol.ts:174-174 | it does so for such a date itself |
| `ObjectUnfolding.TreesAreProtocolValues` | packages/protocol/src/codec.ts:27-41 | the codec accepts every tree of arrays and object literals |
| `ObjectTrees.SanitizedTwice` | packages/server/src/protocol.ts:169-189 | every sanitized result is the unfolding of some value, so the two statements above are about something |
| `ObjectTrees.SanitizedHasGoodKeys` | packages/server/src/protocol.ts:180-185 | dropping entries keeps the keys of a record distinct |
| `ObjectConversion.Converter.ToProtocolJsonValue` | packages/server/src/protocol.ts:145-166 | the recursion terminates on every graph, computes the conversion, and restores the set of seen objects on every way out |
| `ObjectConversion.Converter.SanitizeProtocolDetails` | packages/server/src/protocol.ts:169-189 | so does the recursion that sanitizes |
| `ProxyLines.SplitMore` | packages/agent/src/proxy.ts:195-197 | more text leaves the complete lines alone and continues the remainder |
| `ProxyLines.JoinSplit` | packages/agent/src/proxy.ts:196-196 | splitting loses nothing and leaves no line feed in a piece |
| `ProxyLines.LineReader.Receive` | packages/agent/src/proxy.ts:195-210 | a chunk hands on the data of just the lines it completes, in order |
| `ProxyLines.ReadAll` | packages/agent/src/proxy.ts:187-211 | whatever the chunks, the data handed on is that of the complete data lines of the text |
| `ProxyLines.DataExactly` | packages/agent/src/proxy.ts:199-203 | a line has data exactly if it begins with the prefix and more than white space follows |
| `ProxyLines.WrittenLinesAreRead` | packages/agent/src/proxy.ts:199-203 | payloads written as data lines are read back with nothing left over |
| `ProxyContent.BlocksAreIndependent` | packages/agent/src/proxy.ts:242-353 | the block at an index depends on the events of that index only, and the stream is rejected exactly when one index is |
| `ProxyContent.RejectsExactly` | packages/agent/src/proxy.ts:250-353 | an event is rejected exactly if it continues or ends a block of another kind or none |
| `ProxyContent.BlockIsRebuilt` | packages/agent/src/proxy.ts:250-353 | the events of a block rebuild it, whatever its cutting into deltas |
| `ProxyContent.ContentIsRebuilt` | packages/agent/src/proxy.ts:242-372 | the events of a content rebuild it, whatever the cutting and the interleaving across indices |
| `ProxyContent.PartialMessage.ProcessProxyEvent` | packages/agent/src/proxy.ts:242-372 | an event changes its own block as stated, or is rejected and changes nothing |
| `ProxyStream.ReadMessage` | packages/agent/src/proxy.ts:187-217 | the content after the read loop, or its failure, depends on the text and not on its chunks |
| `ProxyStream.EachLineDecodes` | packages/agent/src/proxy.ts:203-206 | one data line that does not decode fails the whole message |
| `ProxyStream.WrittenMessageIsRebuilt` | packages/agent/src/proxy.ts:187-353 | a message written as data lines of its events is rebuilt from the text |

## Left out

- Sockets, listeners, timers and abort listeners: a transport delivers in order what it has accepted, and may give up the unsent end of it when it closes.
- The value codec and the message schemas: encoding and decoding of payloads are parameters; the round trip assumes that decoding undoes encoding.
- Arguments that are not byte arrays: excluded by type.
- Contents of session snapshots and metadata beyond revision and attachment, progress events, error texts, timestamps and random ids, which are taken to be fresh.
- `ready` of a live session: it is set in the same step that puts the session into the map.
- A second call of `close()`, and the reporting of errors to observers.
- `terminate` calls the disconnects of its connections in one step each; the model lets them come in any order.
- The exact order of promise continuations: a continuation may run at any time after its promise settles, except that the continuations of a lost connection on the client have run when the next connection is established.
- LeaseTheorems.CountIsOutstanding: requires calm removals and disconnects; `LeaseDisturbances` shows that any other may do harm, `LeaseRemovals` and `LeaseDisconnects` give runs, and `CountFallsBehind` shows why it says less without a connection.
- LeaseTheorems.ExclusiveIsAlone: requires calm removals and disconnects for the same reason.
- LeaseTheorems.DisconnectIsFinal: requires calm removals and disconnects before the one it speaks of; `LeaseRemovals.UncountedHandleOutlivesDisconnect` shows why.
- Callbacks of the client that call back into it during `connect`, and listeners in general.
- LeaseProgress.AcquisitionMaySucceed: requires that a running attach or reconciliation has not been rejected already; an acquisition that joins one fails with it.
- SessionProgress.AttachCommandMaySucceed: leaves out ids occupied by a failed session, by an opening that is being discarded, or by one whose session has gone already; such a command fails, or attaches late.
- Decoding failures at the end of a transport: they only choose the error text.
- Requests that arrive during the handshake and are put off until it is over: they are handled as requests of a ready connection.
- SessionIntrusions.LateAttachMayIntrude: leaves out ids occupied by a failed session that is still protected; such a session keeps the id until its connections are gone, the late one possibly among them.
- A reconciliation that is answered or rejected leaves its map in the same step; the entry of the original goes a few continuations later.
- HandshakeTheorems.CurrentRevisionArrives: speaks of revisions; whether two snapshots of one revision list the same sessions is not modelled.
- Store operations of the catalog: one that has settled has no later effect, and a failed one has none.
- Resolution of credentials, the phases of a refresh, and aborting while a caller waits: a refresh may publish at any time.
- Model lookup of unknown APIs, cost calculation, thinking levels: small finite functions.
- AgentLoop.RunLoop: follows a run for as many turns as there are scripts; runs that throw, and `handleRunFailure`, are not modelled.
- AgentLoop.StreamAssistantResponse: requires that a stream announces its message at most once, which the stream contract promises.
- ClientStates.ClientState.ForgetSessionSnapshot: requires that the session is not attached, which its only caller has just seen.
- Aliasing between a context returned by `prepareNextTurn` and the loop's own arrays, and changes of model or reasoning level.
- What a tool, a hook or a listener does: its answer is an input of the call, and the number of progress events is arbitrary.
- Usage, details and images in messages: content and the terminate flag stand for a tool result.
- Sparse arrays, getters, and object keys named `__proto__`.
- ObjectUnfolding.IsProtocolValue: passes the set of ancestors as a value where the code changes one set and restores it.
- Lower-casing of header names is that of ASCII letters; header names have no others.
- `parseStreamingJson`, argument validation and `JSON.parse`: uninterpreted functions.
- Usage and error text in the final proxy events, and the flush of the text decoder at the end of the stream.
