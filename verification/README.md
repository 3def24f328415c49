# WebRTC signaling over SignalR — a Dafny model

This project models the two pieces of logic in a small WebRTC video-call app.

- **The relay hub** (`backend/Hubs/VideoCallHub.cs`). Browsers connect to one SignalR hub. A browser joins a room. The hub tells the room's members that it joined. Opaque negotiation payloads (offers, answers, ICE candidates) are relayed to exactly one target connection. A departure is announced to every other connection.
- **The client's peer registry and glare gate** (`frontend/src/components/VideoCall.tsx`). Per remote connection id, the component keeps a simple-peer object, an "is the local side the initiator" flag and the remote media stream. Hub events create and tear down these entries. Inbound signals are applied by role: an offer only to a responder, an answer only to an initiator, a candidate always, anything else never.

Layout:

- `wrappers.dfy`, module `Wrappers`: `Option`.
- `classifier.dfy`, module `Classifier`: `String.Contains` as a verified substring search, and the hub's signal-type label.
- `relay.dfy`, module `Relay`: the hub's state as a value, with one pure transition per hub entry point. It also has lemmas about single calls and about whole runs of calls.
- `video_call_hub.dfy`, module `Backend`: class `VideoCallHub`. Its fields are the group table, the live connections, the sends issued and the log. Each method is proved to perform the matching `Relay` transition.
- `negotiation.dfy`, module `Negotiation`: the client's per-peer state as a value, `Links` (one `Link` per remote id). It holds the glare gate, one pure transition per handler, the role-safety invariant `GlareSafe` and its preservation over any run of events.
- `video_call.dfy`, module `Frontend`: classes `Peer` (a simple-peer instance) and `VideoCall` (the component's three tables, updated in place). `VideoCall.Valid()` is the registry invariant. It says flags exist for exactly the ids with a peer, streams exist only for ids with a peer, registered peers are live and carry their recorded role, and no peer object is shared. Each method is proved to move the ghost view `links` exactly as the matching `Negotiation` function.

How the environment is represented:

- The SignalR transport is explicit state. `connected` is the set of live connection ids. `groups` maps each room to the ids added to it.
- Every `SendAsync` is appended to an outbox together with the set of connections it reaches at that instant:
  - `Clients.Client(id)` reaches `{id}` if `id` is live, and nobody otherwise.
  - `Clients.Group(r)` reaches the live members of `r`.
  - `Clients.All` reaches every live connection. When `OnDisconnectedAsync` runs, SignalR has already aborted the departing connection, so it is no longer live and is not reached.
- When a connection ends, the transport drops it from every group it was added to; the hub makes no such call itself.
- The hub's log lines are recorded with the values they compute.
- `Context.ConnectionId` is a `caller` parameter. `JSON.parse` is given as its outcome (`Parsed`). Hub events and peer events are plain method calls, each one atomic.

Where the code and the written design of the system differ, the model follows the code:

- The design's three-member scenario says the first joiner "sees nothing on its own join". In the code, `Clients.Group(roomId)` is addressed after `AddToGroupAsync`, so every joiner receives its own `userConnected` (`Relay.JoinRoom`, `Relay.LobbyScenario`). The client does not filter its own id, so it then creates a peer for itself, as initiator.
- The design calls for a non-empty room id. The code checks nothing, and neither does the model.
- A `SendSignal` to an absent target still records a send (with no recipients) and a log line. It changes no group and no connection.

## Model

| member | source | states |
|---|---|---|
| Classifier.IndexOfFrom | backend/Hubs/VideoCallHub.cs:35-37 | the search `String.Contains` performs: it returns the first index at or after `from` where the pattern occurs, or proves there is none |
| Classifier.Contains | backend/Hubs/VideoCallHub.cs:35-37 | `signal.Contains(tag)` is true exactly when the tag occurs somewhere in the payload |
| Classifier.ClassifySignal | backend/Hubs/VideoCallHub.cs:35-37 | the label is "offer" iff the offer tag occurs; otherwise "answer" iff the answer tag occurs; otherwise "candidate" iff the candidate tag occurs; "unknown" iff none of the three occurs |
| Classifier.SerializedOfferIsOffer | backend/Hubs/VideoCallHub.cs:35 | a payload serialized as `{"type":"offer",...}` is labelled "offer", whatever follows |
| Classifier.SerializedAnswerIsAnswer | backend/Hubs/VideoCallHub.cs:36 | a payload serialized as `{"type":"answer",...}` is labelled "answer" unless the offer tag also occurs in it |
| Classifier.OfferTagWins | backend/Hubs/VideoCallHub.cs:35-37 | a payload that carries both the answer and the offer tag is labelled "offer" |
| Relay.DisconnectReason | backend/Hubs/VideoCallHub.cs:47 | the reason logged is the exception's message when there is one, and "Normal disconnect" otherwise |
| Relay.Connect | backend/Hubs/VideoCallHub.cs:15-19 | connecting registers the id and writes one log line; no group changes and nothing is sent |
| Relay.JoinRoom | backend/Hubs/VideoCallHub.cs:21-26 | the caller is added to the room and no other room changes; then one `userConnected(caller)` goes to the room's live members after the add, so the caller receives it too |
| Relay.SendSignal | backend/Hubs/VideoCallHub.cs:28-40 | exactly one send: `receiveSignal(payload, caller)`, payload unchanged; it reaches at most the target, and reaches the target iff the target is live; groups and connections are unchanged; the label goes only to the log |
| Relay.Disconnect | backend/Hubs/VideoCallHub.cs:42-51 | `userDisconnected(caller)` reaches exactly the remaining live connections, never the caller, whatever their rooms; the caller leaves the live set and every room, and no other member changes; the log records the reason label |
| Relay.JoinTwiceIsIdempotent | backend/Hubs/VideoCallHub.cs:21-26 | joining the same room twice leaves the same group table as joining once, and still issues two notifications |
| Relay.SendSignalIgnoresRoom | backend/Hubs/VideoCallHub.cs:28-39 | the room argument changes neither who is reached nor what is sent nor the groups |
| Relay.DeliveryIgnoresSignalType | backend/Hubs/VideoCallHub.cs:30-39 | two payloads are delivered to the same recipients whatever their labels, and each carries its own payload verbatim |
| Relay.DepartureIsGlobal | backend/Hubs/VideoCallHub.cs:49 | any other live connection, even one that shares no room with the departing one, receives `userDisconnected` |
| Relay.StepOnlyAppends | backend/Hubs/VideoCallHub.cs:15-51 | one hub call appends at most one send, reaching only connections live at that moment; it only appends to the log; a room loses only members that are no longer live; and it keeps every room's members live |
| Relay.GroupSendReachesMembers | backend/Hubs/VideoCallHub.cs:21-26 | while rooms hold only live connections, the `userConnected` send reaches exactly the room's members after the add |
| Relay.RunOnlyAppends | backend/Hubs/VideoCallHub.cs:15-51 | over any run of calls, outbox and log only grow, by at most one send per call, and a run that starts with only live members in its rooms never leaves a departed connection in a room |
| Relay.LobbyScenario | backend/Hubs/VideoCallHub.cs:15-51 | three connections join "lobby" in turn, then the first leaves; the sends are exactly `{a}`, `{a,b}` and `{a,b,c}` for the joins, then `{b,c}` for the departure |
| Relay.ReconnectStartsClean | backend/Hubs/VideoCallHub.cs:15-51 | a connection joins "r" and leaves, its id connects again, and another connection joins "r": that join reaches only the joiner, because the new session was never added to "r" |
| Backend.VideoCallHub.constructor | backend/Hubs/VideoCallHub.cs:10-13 | the state the transport holds when the server starts: no groups, no connections, no sends and no log (SignalR builds a hub object per call and the C# constructor only keeps the logger) |
| Backend.VideoCallHub.OnConnectedAsync | backend/Hubs/VideoCallHub.cs:15-19 | the hub's state moves exactly as `Relay.Connect` |
| Backend.VideoCallHub.JoinRoom | backend/Hubs/VideoCallHub.cs:21-26 | the hub's state moves exactly as `Relay.JoinRoom` |
| Backend.VideoCallHub.SendSignal | backend/Hubs/VideoCallHub.cs:28-40 | the hub's state moves exactly as `Relay.SendSignal` |
| Backend.VideoCallHub.OnDisconnectedAsync | backend/Hubs/VideoCallHub.cs:42-51 | the hub's state moves exactly as `Relay.Disconnect` |
| Negotiation.Gate | frontend/src/components/VideoCall.tsx:197-209 | with the stored flag (absent reads as false): an offer passes iff the flag is not true; an answer passes iff it is true; a candidate always passes; any other type never does |
| Negotiation.Remove | frontend/src/components/VideoCall.tsx:144-155 | teardown removes the id's entry with all three parts, and leaves every other id's entry as it was |
| Negotiation.UserConnected | frontend/src/components/VideoCall.tsx:178-183 | a known id is left untouched; an unknown id gets exactly one new entry, as initiator with nothing applied and no stream |
| Negotiation.Deliver | frontend/src/components/VideoCall.tsx:197-209 | the message is appended to what the sender's peer was handed iff the gate passes it; otherwise nothing changes; role and stream never change |
| Negotiation.ReceiveSignal | frontend/src/components/VideoCall.tsx:185-214 | an unparseable payload, or `null`, tears the sender's entry down; otherwise the sender ends up with an entry (a new one as responder), and the message is applied to it iff the gate passes it; other ids are untouched |
| Negotiation.StreamArrived | frontend/src/components/VideoCall.tsx:122-128 | the stream is recorded for that id alone; its role and applied messages are unchanged |
| Negotiation.GateIsRoleConsistent | frontend/src/components/VideoCall.tsx:197-209 | once a flag is stored, the gate passes exactly the messages that fit the role: offers to responders, answers to initiators, candidates to both |
| Negotiation.StrangerBecomesResponder | frontend/src/components/VideoCall.tsx:190-209 | a signal from an id without a peer creates a responder first; an offer or candidate from it is applied, an answer is not |
| Negotiation.OfferToInitiatorDropped | frontend/src/components/VideoCall.tsx:197-201 | an offer arriving while the local side initiates leaves the whole registry unchanged |
| Negotiation.AnswerToResponderDropped | frontend/src/components/VideoCall.tsx:202-206 | an answer arriving while the local side responds leaves the whole registry unchanged |
| Negotiation.CandidateAlwaysApplied | frontend/src/components/VideoCall.tsx:207-209 | a candidate is appended to the sender's peer whatever its role |
| Negotiation.OtherTypesOnlyCreate | frontend/src/components/VideoCall.tsx:190-209 | a message of any other type is dropped; the only change is the responder created for an unknown sender |
| Negotiation.TeardownLeavesNoResidue | frontend/src/components/VideoCall.tsx:144-194 | after teardown, a new contact from the same id gets its role from that contact alone, with no old messages and no old stream |
| Negotiation.ApplyKeepsGlareSafe | frontend/src/components/VideoCall.tsx:178-219 | no single event can hand a peer a message that conflicts with its role |
| Negotiation.ReplayKeepsGlareSafe | frontend/src/components/VideoCall.tsx:178-219 | over any sequence of joins, signals, departures, streams and peer failures, no peer is ever handed an offer while initiating or an answer while responding |
| Negotiation.Handshake | frontend/src/components/VideoCall.tsx:178-209 | A joins, then B: A initiates for B and B responds to A; B applies A's offer, A applies B's answer, and both apply candidates |
| Frontend.Peer.constructor | frontend/src/components/VideoCall.tsx:103-113 | a new peer has the requested role, has been handed nothing and is not destroyed |
| Frontend.Peer.Signal | frontend/src/components/VideoCall.tsx:201 | `peer.signal` appends the message to what the peer was handed |
| Frontend.Peer.Destroy | frontend/src/components/VideoCall.tsx:147 | `peer.destroy` marks the peer destroyed and keeps what it was handed |
| Frontend.VideoCall.constructor | frontend/src/components/VideoCall.tsx:14-24 | the component starts with empty tables and no outgoing invocations |
| Frontend.VideoCall.CreatePeer | frontend/src/components/VideoCall.tsx:93-142 | a fresh peer and its flag are stored under the same id, so the peer and flag tables keep the same keys; nothing else changes |
| Frontend.VideoCall.RemovePeer | frontend/src/components/VideoCall.tsx:130-155 | for an id with a peer: that peer is destroyed and its peer, flag and stream entries go together; for an id without one, nothing changes; other ids are never touched |
| Frontend.VideoCall.HandleUserConnected | frontend/src/components/VideoCall.tsx:178-183 | the tables move as `Negotiation.UserConnected`; a known id keeps the very same peer object; an unknown id gets a fresh initiator peer and every other id keeps its peer object |
| Frontend.VideoCall.HandleReceiveSignal | frontend/src/components/VideoCall.tsx:185-214 | the tables move as `Negotiation.ReceiveSignal`; an unknown sender gets a fresh responder peer and every other id keeps its peer object; on a parse failure or `null`, the peer table loses exactly the sender and the old peer is destroyed |
| Frontend.VideoCall.AcceptSignal | frontend/src/components/VideoCall.tsx:188-209 | a parsed message: the sender's peer is found or created as responder, every other id keeps its peer object, and the tables move as `Negotiation.ReceiveSignal` |
| Frontend.VideoCall.SignalIfAllowed | frontend/src/components/VideoCall.tsx:196-209 | the three-branch gate hands the message to the sender's peer exactly as `Negotiation.Deliver` says |
| Frontend.VideoCall.HandleUserDisconnected | frontend/src/components/VideoCall.tsx:216-219 | the tables move as `Negotiation.Remove`; the peer table loses exactly the departing id, whose peer is destroyed |
| Frontend.VideoCall.OnRemoteStream | frontend/src/components/VideoCall.tsx:122-128 | the stream is stored under the peer's id, as `Negotiation.StreamArrived` |
| Frontend.VideoCall.OnLocalSignal | frontend/src/components/VideoCall.tsx:115-120 | a peer's outgoing signal becomes exactly one `SendSignal(payload, roomId, userId)` invocation aimed at that peer's id |

## Left out

- Connection building, automatic reconnect, the `onreconnecting`/`onreconnected`/`onclose` status strings, the `start`/`invoke` promise chains and the `on`/`off` handler registration (`VideoCall.tsx` 27-49, 158-176, 221-229). These are asynchronous I/O over the SignalR client library. Hub events are modelled as direct method calls.
- simple-peer internals: SDP and ICE generation, the STUN servers, the `trickle` option and the local media stream handed to the peer (`VideoCall.tsx` 103-113). The peer is an opaque object that records what `signal` hands it and whether `destroy` was called. Peer errors caused by the messages it is handed are outside the model. So are exceptions thrown by `peer.signal` inside the `try` block.
- A peer's `error` and `close` events call `removePeer(userId)` (`VideoCall.tsx` 130-138). The model has them call `RemovePeer` directly. In the event model they appear as `PeerFailed`. simple-peer emits `close` asynchronously after `destroy`. Because that handler removes by id, a late `close` could in principle tear down a newer peer for the same id. Ordering between asynchronous callbacks is not modelled.
- The `connection` null check in the peer's `signal` handler (line 117). Handlers are registered only once a connection exists, so the model always sends.
- `getUserMedia`, stopping tracks and the unmount cleanup that destroys every peer (`VideoCall.tsx` 51-90). These are media devices and the React lifecycle.
- Rendering and status colours (`VideoCall.tsx` 232-279).
- `JSON.parse` itself. A parse is given as its outcome: failure, `null`, or an object whose `type` field is a string or not.
- Concurrency. Each handler and each hub call is one atomic step. Ordering across connections is not modelled.
- Logger output, apart from the label and the reason text the hub computes.
- SignalR's own bookkeeping beyond the connection registry and the group table: the abort of a departing connection is folded into `Relay.Disconnect` (it leaves the live set before the notice is sent, and every group once the hub returns). Unique connection ids are not assumed; an id that connects again starts with no rooms.
- `backend/Program.cs`: host bootstrap, logging providers, the CORS origin list and the hub route. This is configuration.
- Frontend.VideoCall.CreatePeer: requires that the id has no peer yet. Both call sites guarantee this (lines 180 and 192). The source's function would otherwise overwrite the entry without destroying the old peer.
- Frontend.VideoCall.OnRemoteStream: requires the id to have a live peer. Only a registered, undestroyed peer emits `stream`.
- Frontend.VideoCall.OnLocalSignal: requires the id to have a live peer, for the same reason.
