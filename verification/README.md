# Verified model of the SHIP stack

This project models the parts of ship-go that decide whether two EEBUS devices come to trust and talk to each
other, and proves what they promise: the SHIP handshake of SHIP TS 1.0.1 (sections 13.4.3 to 13.4.6), the EEBUS
JSON rewriting, the trust store of the hub, the connection registry and its dials (section 12.2.2 of SHIP TS
1.0.1), and the SHIP Pairing Service (sections 4.2, 4.3, 5.4, 7.3, 7.4 and 11 of its specification).

`dafny verify dfyconfig.toml` checks everything. The files build on each other in this order:

- `Basics.dfy`, `Letters.dfy`: an option type; letter case and white space.
- `EebusJson.dfy`, `EebusRoundTrip.dfy`, `EebusEnvelope.dfy`: outgoing JSON as a tree transform, incoming JSON as
  four blind textual replacements, and the splicing of a SPINE payload into its envelope. Texts are characters,
  keys and leaves are tokens as they are written. The main results say exactly which documents survive.
- `ShipModel.dfy`, `ShipEndpoint.dfy`: states, messages and timers; one end of a connection as a value, and where
  one event takes it, with the chains of nested state changes written out flat. Each event carries the answers of
  the hub and the outcomes of the writes it attempts.
- `ShipConnection.dfy`: the same end as the object it is, with mutually recursive handlers that update its fields,
  each proved to compute those functions.
- `ShipTable.dfy`, `ShipFailures.dfy`, `ShipTimers.dfy`: one end said without its handlers. The handshake as one table of
  states and events, what becomes of it when the connection does not work or the user gives up, and the law of its timer.
- `ShipOrder.dfy`, `ShipTrust.dfy`, `ShipLapse.dfy`: one end against an arbitrary peer, user and network; the last one
  what becomes of the ends when the order of states was broken.
- `SpineBuffer.dfy`: the SPINE messages that come in before the handshake has completed.
- `ShipSystem.dfy`, `ShipMoves.dfy`, `ShipScript.dfy`, `ShipSafety.dfy`: a client and a server joined by two
  first-in first-out channels: agreement under every interleaving, and safety, termination and the exact condition
  on approvals when writes succeed.
- `ShipWire.dfy`, `ShipCompletion.dfy`, `ShipWitness.dfy`: the one handshake message that carries free text on its way
  through the texts of `EebusJson.dfy`, the exact condition on SHIP IDs for safety and completion, and runs that reach
  what the exact conditions single out.
- `TrustStore.dfy`, `TrustMerge.dfy`, `TrustOrder.dfy`, `TrustHub.dfy`: the merge of service entries on values, its
  guarantees, its independence of order, and the registry object with its loops and in-place deletion.
- `TrustLookup.dfy`: the trust store said of the fields of its entries: whom a lookup finds, what a merge makes of each.
- `TrustSlot.dfy`, `TrustEvents.dfy`, `HubPairing.dfy`: the place of the one control unit and its replacement timer, over
  whole runs, event by event, and as methods of the hub.
- `ConnectionRegistry.dfy`, `DoubleConnections.dfy`, `DialDiscipline.dfy`, `HubConnections.dfy`: which connection is
  kept, at one end and at both, the interleaving of dials with incoming connections, and the objects behind it.
- `RingBuffer.dfy`, `PairingRecord.dfy`, `PairingTxt.dfy`, `PairingBrowse.dfy`, `PairingListener.dfy`,
  `PairingAcceptance.dfy`, `PairingDevices.dfy`, `PairingHub.dfy`: the digest history as a refinement of a log, the
  authenticated record and its message, its way over mDNS, the listener over whole runs, what it accepts said of the
  record, both devices as objects, and the listener together with the place of the control unit.

Every handler is one atomic step. What a hub answers, whether a write succeeds, what the random source, the
persistence and the mDNS provider return are inputs of the step.

Some promises hold only under a condition. Each is proved with the condition under which it holds:

- An approval announces readiness before it validates. If that write is refused but the following abort is not, and
  the connection is still open, the code aborts and then accepts. `ShipOrder.OrderExact` says that this is the only
  way in which the order of states is ever broken; the whole-run results of `ShipOrder` exclude exactly this event,
  which cannot occur when a failed write closes the connection. Those of `ShipSystem` and `ShipCompletion` do not.
- A SHIP ID is free text, and the receiver compares and stores what the four replacements leave of it; a message with the
  word "datagram" in it goes to SPINE. `ShipCompletion.SafetyExact` and `CompletionExact` say that safety and completion
  hold exactly for ends that go on with the SHIP ID that arrives from the other one; `Safety`, `Progress` and
  `ApprovalExact` are stated for such ends. For ends that know each other by name this asks both names to be free of the
  patterns and of the word (`AcquaintedExact`, `ShipWire.ArrivesExact`).
- Without permission to wait and without a wait announced by the peer, the reply to a prolongation request is waited for
  66 microseconds, not 66 seconds, because milliseconds are taken for nanoseconds (`ship/hs_hello.go:245-249`):
  `ShipTimers.TimersExact`. A pending end that is told to wait between 1 s and 30 s by a pending peer waits without any
  timer: `ShipTimers.PendingWithoutTimer`.
- An approval while a "ready" of the client is still on the way ends the handshake, because the protocol state
  refuses every hello: `ShipSafety.ApprovalExact`.
- `RoundTripExact` and `SpliceRoundTrip` name the documents that the replacements damage. They survive with
  brackets and braces inside strings as long as none of the four patterns occurs.
- SHIP IDs are matched exactly but compared for conflicts up to letter case. `TrustMerge.MergeFound` says exactly when
  this makes an entry unfindable. `TrustSlot` assumes that SHIP IDs do not differ in case only.
- Cancelling the pairing of the control unit leaves its entry and its timer behind, and merging another control unit
  evicts nobody. `TrustSlot.EventExact` says that exactly these events lose the slot, `TrustSlot.CancelExact` the same of
  the window; the runs of `RunKeepsSlot` and `WindowProtects` contain none of them. `TrustSlot.CancelOpensWindow`,
  `RedialMakesTwo` and `RegisteringMakesTwo` are runs with them.
- The slot of the control unit is emptied before a new request is checked: `TrustSlot.RefusalExact`.
- A ring that is enlarged while its index is zero reports no current entry: `RingBuffer.EnlargedCurrent`.
- A failed save of the digest history is ignored; after a restart the same record is accepted again exactly when the
  loaded history does not hold it: `PairingListener.LostSaveReplays`.
- The signed message is unambiguous for one receiver: `PairingRecord.MessageUnambiguous`. For different ones
  `PairingRecord.AmbiguousReceivers` says which pairs of receivers it cannot tell apart.
- Of two hubs with several connections to each other only the one with the bigger SKI should decide which is kept. The
  program only logs which one that is, both keep their most recent one, and two hubs agree exactly when they registered
  the same connection last: `DoubleConnections.KeepSameOrNone`.
- A connection that closes before it is registered stays in the registry, and no other closed one does:
  `ConnectionRegistry.HoldsClosedExact`.
- A request that the replacement window defers has been recorded before. The comment in `hub/hub_pairing.go:554-555` says
  that it is evaluated again when the timer expires; `PairingHub.DeferredRetry` says when that is so.

## Model

| member | source | states |
|---|---|---|
| `EebusJson.ProcessLevel` | ship/helper.go:31-60 | the loops over fields and items build the tree in which every object, at every level, is an array of one-field objects |
| `EebusRoundTrip.OutgoingText` | ship/helper.go:63-87 | an outgoing object is the EEBUS print of its fields without the outermost brackets |
| `EebusRoundTrip.RoundTrip` | ship/helper.go:12-28 | for every non-empty object, at any nesting and with any number of trailing NUL bytes, the receiver reads the standard print of the object's normal form |
| `EebusRoundTrip.RoundTripExact` | ship/helper.go:12-87 | the four replacements undo the transform if and only if the object is not empty, holds no empty array, and no key or value text contains one of the four patterns |
| `EebusRoundTrip.TrimBothEnds` | ship/helper.go:12-16 | exactly the NUL bytes at both ends of an incoming text are removed |
| `EebusEnvelope.TransformedText` | ship/connection_serialization.go:16-52 | replacing the placeholder gives exactly the EEBUS print of the envelope with the un-bracketed payload in its place |
| `EebusEnvelope.SpliceRoundTrip` | ship/connection_serialization.go:16-52 | the spliced message reads back as the standard envelope around the payload's normal form, for any number of top-level fields, and as the payload that was sent exactly when no text in it contains a pattern and no array in it is empty |
| `ShipModel.WaitingDuration` | ship/hs_hello.go:142-143 | a waiting value is the number of milliseconds as nanoseconds, exact while it fits into 64 bits and wrapped around otherwise |
| `ShipConnectionClass.ShipConnection.constructor` | ship/connection_lifecycle.go:26-51 | a new connection is in the first state, open, with no timer, nothing sent and no reader |
| `ShipConnectionClass.ShipConnection.SetSmeState` | ship/handshake.go:49-95 | entering a state records it and arms or stops the handshake timer as that state asks |
| `ShipConnectionClass.ShipConnection.SendShipModel` | ship/connection_serialization.go:81-128 | a message is written, or the write fails, or a closed data connection makes the connection close |
| `ShipConnectionClass.ShipConnection.EndHandshakeWithError` | ship/handshake.go:242-256 | timer stopped, error state entered, connection closed once |
| `ShipConnectionClass.ShipConnection.HandleState` | ship/handshake.go:105-224 | the mutually recursive handlers terminate, and one message, one timeout or one nested state change ends where the flat transition function says |
| `ShipConnectionClass.ShipConnection.HandleLaterState` | ship/handshake.go:174-223 | the same for the states after hello |
| `ShipConnectionClass.ShipConnection.SetAndHandleState` | ship/handshake.go:227-230 | setting a state and handling it runs the whole chain of nested states to rest |
| `ShipConnectionClass.ShipConnection.CmiInit` | ship/hs_init.go:12-27 | per role: send first and wait, or wait; a failed write ends the handshake |
| `ShipConnectionClass.ShipConnection.CmiClient` | ship/hs_init.go:46-87 | a valid message leads to hello, anything else to the error state without an answer |
| `ShipConnectionClass.ShipConnection.CmiServer` | ship/hs_init.go:30-87 | a valid message is answered and leads to hello, an invalid one is answered and ends the handshake |
| `ShipConnectionClass.ShipConnection.ReadyListen` | ship/hs_hello.go:24-83 | every phase a ready peer may send, and the timeout |
| `ShipConnectionClass.ShipConnection.PendingListen` | ship/hs_hello.go:112-217 | every phase a pending end may receive, with the limits on waiting times, and both kinds of timeout |
| `ShipConnectionClass.ShipConnection.PeerPending` | ship/hs_hello.go:164-203 | a pending peer's waiting value and prolongation requests |
| `ShipConnectionClass.ShipConnection.PendingInit` | ship/hs_hello.go:98-109 | pending is announced, and aborted again when waiting is not allowed |
| `ShipConnectionClass.ShipConnection.HandleAbort` | ship/hs_hello.go:86-95 | an abort is announced, or the handshake ends with an error |
| `ShipConnectionClass.ShipConnection.ProlongationRequest` | ship/hs_hello.go:219-232 | a prolongation request and the timer for its answer |
| `ShipConnectionClass.ShipConnection.HandlePendingTimeout` | ship/hs_hello.go:234-250 | without permission to wait: one last request or the abort, by the kind of timer that fired |
| `ShipConnectionClass.ShipConnection.ServerListenProposal` | ship/hs_prot.go:40-75 | only an announcement is answered with a selection; a late hello or anything else aborts |
| `ShipConnectionClass.ShipConnection.ServerListenConfirm` | ship/hs_prot.go:77-96 | only a selection leads on to the PIN check |
| `ShipConnectionClass.ShipConnection.ClientListenChoice` | ship/hs_prot.go:112-175 | only the selection of version 1.0 with exactly the one format is confirmed |
| `ShipConnectionClass.ShipConnection.PinListen` | ship/hs_pin.go:30-52 | only the absence of a PIN leads on |
| `ShipConnectionClass.ShipConnection.AccessRequest` | ship/hs_access.go:85-120 | a request is answered; the peer's methods are accepted when its SHIP ID is present and fits the known one |
| `ShipConnectionClass.ShipConnection.AccessMethodsResponse` | ship/hs_access.go:63-83 | a SHIP ID is accepted exactly when none was known or it is the known one |
| `ShipConnectionClass.ShipConnection.HandleShipMessage` | ship/handshake.go:13-46 | termination messages, and everything else by state |
| `ShipConnectionClass.ShipConnection.ApproveIfPending` | ship/connection_handshake.go:30-85 | readiness is announced first, then the connection and the trust are validated, then hello is accepted or aborted |
| `ShipConnectionClass.ShipConnection.AbortIfPending` | ship/connection_handshake.go:98-115 | a pending or ready hello is aborted, any other state is left alone |
| `ShipConnectionClass.ShipConnection.ReportConnectionError` | ship/connection_messaging.go:91-124 | a broken connection rejects a ready hello, leaves finished aborts alone and is an error otherwise |
| `ShipConnectionClass.ShipConnection.CloseConnection` | ship/connection_lifecycle.go:76-125 | closing happens once, with an announcement after a completed handshake if it is safe |
| `ShipConnectionClass.ShipConnection.HandleIncomingWebsocketMessage` | ship/connection_messaging.go:59-88 | what was written reaches the handshake as the replacements leave it, unless the word "datagram" sends it to SPINE |
| `ShipConnectionClass.ShipConnection.Handle` | ship/handshake.go:13-256 | any event takes the connection to the state the transition function gives, and to a state in which it rests |
| `ShipTable.TableExact` | ship/handshake.go:13-256 | while every write succeeds, every event in every resting state leaves the endpoint where the table of the handshake says, with the data connection open or closed as it says and exactly the messages sent that it says; completing takes over the peer's SHIP ID and hands over to SPINE |
| `ShipTable.OwnMessages` | ship/hs_hello.go:252-270 | the hello messages carry 60000 milliseconds or none, and the others are constants |
| `ShipFailures.BrokenExact` | ship/connection_serialization.go:81-128 | on a connection that is closed or refuses every write nothing is sent, an event that has something to send ends the handshake unless it only closes the connection, any other goes where the table says, and the timer does not outlive the connection |
| `ShipFailures.RefusedHello` | ship/hs_hello.go:14-22 | a "ready" that is refused on an open connection is followed by an abort, a refused "pending" by the error state |
| `ShipFailures.AbortExact` | ship/connection_handshake.go:98-115 | an abort by the user of a pending or ready hello ends in the aborted state with "aborted" as the last message, or in the error state on a closed connection if it cannot be written, and without a timer in both; in every other state it changes nothing |
| `ShipFailures.AbortedForGood` | ship/connection_handshake.go:98-115 | in every steady run no peer is accepted and nothing completes after such an abort, whatever happens next |
| `ShipTimers.TimersExact` | ship/handshake.go:49-95 | over every run with any outcomes of the writes, until the connection is shut down: CMI, proposal, confirm, choice and access methods wait with a timer of 10 s, a ready end with one of 60 s, a pending one as the last grant, request or neither has left it, every other state without one |
| `ShipTimers.PendingWithoutTimer` | ship/hs_hello.go:164-189 | a pending end waits without a timer exactly when the last thing that concerned the timer was a peer that is pending too and asked for less than 30 s |
| `ShipTimers.GrantExact` | ship/hs_hello.go:128-189 | granted w milliseconds, a pending end asks for more exactly 30 s before they are over; with less than 30 s it aborts if the peer is ready, and if the peer is pending waits without a timer, or aborts below 1 s |
| `ShipTimers.AsksInTime` | ship/hs_hello.go:144-152 | a pending end that receives this implementation's own "ready" asks for more after half the time that the ready end waits |
| `ShipOrder.RunWalks` | ship/handshake.go:105-239 | against an arbitrary peer, user and network every run keeps to the order of states and sends access methods to nobody before they were asked for |
| `ShipOrder.OrderExact` | ship/connection_handshake.go:30-56 | one event breaks the order of states if and only if it is an approval whose "ready" is refused while the "aborted" after it goes through on an open, trusted connection |
| `ShipOrder.CompletedPath` | ship/handshake.go:105-239 | a handshake that completes has entered exactly the states of the client's or the server's route, in order: hello, protocol, PIN, access methods, approval |
| `ShipOrder.FailedNeverCompletes` | ship/handshake.go:105-224 | after an error, abort, remote abort or rejection neither hello nor completion is ever reached |
| `ShipTrust.HelloOkNeedsTrust` | ship/connection_handshake.go:30-85 | a server that ever accepted a peer was told at the start that the peer is trusted or accepted automatically, or received an approval on an open connection to a paired peer; with writes failing in any way |
| `ShipSystem.Agreement` | ship/hs_access.go:85-120 | client and server over two channels, under every interleaving of timeouts, user decisions, failed writes and broken connections without exception: when one end completed the other has passed hello, protocol and PIN, and an end that aborted in hello has no peer that completed |
| `ShipLapse.HelloOkNeedsReady` | ship/hs_hello.go:24-60 | a client is accepted only by a "ready" that it receives |
| `ShipLapse.GlitchLapses` | ship/connection_handshake.go:30-56 | the approval that breaks the order of states leaves a server that expects a proposal and has sent no "ready" |
| `ShipLapse.LapsedStep` | ship/hs_prot.go:40-59 | such a server fails or stays where it is on every event except a proposal |
| `ShipSystem.ApprovedNeedsMethods` | ship/hs_access.go:63-120 | only the peer's access methods lead to approval |
| `ShipSafety.Safety` | ship/hs_hello.go:14-232 | for ends that go on with each other's arriving SHIP IDs, with any number of prolongation rounds and in any order of deliveries: both ends accept the message that comes next in every reachable state, and neither has entered a failed or aborted state |
| `ShipSafety.Progress` | ship/handshake.go:105-239 | for the same ends, once both run and the server is ready, exactly a fixed number of deliveries follows in whatever order, some message is waiting before that, and after it both ends are complete with empty channels |
| `ShipSafety.ApprovalExact` | ship/hs_prot.go:40-59 | for the same ends, approving a pending server leads into an error if and only if a "ready" is on the way or still owed |
| `ShipSafety.QuietMeansPaid` | ship/hs_hello.go:43-61 | when the client listens and neither a "ready" nor a prolongation request is on the way, every request has been answered and received |
| `ShipScript.HeadsAccepted` | ship/handshake.go:116-222 | the head of either channel is one the receiver's state goes on with |
| `ShipCompletion.SafetyExact` | ship/hs_access.go:63-83 | every permitted run is safe if and only if each end goes on with the SHIP ID that arrives from the other one |
| `ShipCompletion.CompletionExact` | ship/hs_access.go:85-120 | some permitted run completes both ends if and only if that holds |
| `ShipCompletion.CompletionNeedsNames` | ship/hs_access.go:63-120 | under every interleaving of timeouts, user decisions, failed writes and broken connections without exception, an end that completes knew the SHIP ID that arrives from its peer, or none, and that SHIP ID does arrive |
| `ShipCompletion.AcquaintedExact` | ship/hs_access.go:71-80 | ends that know each other by name go on with each other if and only if neither name contains one of the four patterns, or the word "datagram" as JSON writes it |
| `ShipCompletion.BracketedNameFails` | ship/hs_access.go:52-74 | a server named dev[]1 whose client knows that name never completes, and some permitted run is not safe |
| `ShipCompletion.WordInNameFails` | ship/connection_messaging.go:59-88 | a server named datagram completes with nobody |
| `ShipWire.MethodsRead` | ship/hs_access.go:52-60 | for a SHIP ID of any characters, escaped as JSON asks, the receiver reads the access methods of the SHIP ID as the four replacements leave it |
| `ShipWire.TakenExact` | ship/connection_messaging.go:86-88 | access methods are taken for SPINE data if and only if the word occurs in the SHIP ID as it is written in JSON |
| `ShipWire.ArrivesExact` | ship/helper.go:12-28 | a SHIP ID arrives as it was sent if and only if none of the four patterns occurs in it, and not the word |
| `ShipWire.EscapesUnambiguous` | ship/hs_access.go:52-60 | different SHIP IDs are written as different texts, so the one that was written is the one that is read |
| `ShipWitness.GlitchReachable` | ship/connection_handshake.go:30-56 | a new server reaches the approval that breaks the order of states |
| `ShipWitness.ApprovalDrains` | ship/hs_prot.go:40-59 | after any approval of a pending server, early or not, some order of deliveries empties both channels |
| `ShipWitness.EarlyApprovalFails` | ship/hs_prot.go:52-59 | from any start some permitted run and an approval lead to a server that fails |
| `SpineBuffer.NothingLost` | ship/connection_messaging.go:47-83 | what was delivered, followed by what is kept, is what arrived, in order; after the approval nothing is kept, before it nothing delivered |
| `SpineBuffer.SpineReceiver.HandleSpineMessage` | ship/connection_messaging.go:59-83 | a message is kept until there is a reader and handed over from then on |
| `SpineBuffer.SpineReceiver.ProcessBufferedSpineMessages` | ship/connection_messaging.go:47-56 | the loop hands over everything that was kept, in order, and keeps nothing |
| `SpineBuffer.SpineReceiver.ApproveHandshake` | ship/handshake.go:233-239 | the approval hands over what was kept |
| `TrustMerge.MergeFails` | hub/hub.go:434-493 | a merge fails exactly when the candidate has no identifier, or two values given for one identifier among candidate and matches disagree |
| `TrustMerge.MergeKeeps` | hub/hub.go:500-566 | the merged entry is trusted, automatically accepted or a control unit exactly when the candidate or a match was, and carries an identifier exactly when one of them did, with a value of theirs |
| `TrustMerge.MergeShape` | hub/hub.go:495-535 | the new registry is the old one in its order, without the absorbed entries, with the merged entry in the canonical place |
| `TrustMerge.MergeDistinct` | hub/hub.go:429-536 | if only the candidate shared an identifier with other entries, afterwards no two entries share one, also when the candidate is itself an entry |
| `TrustMerge.MergeFound` | hub/hub.go:876-912 | looking up the candidate's identifiers afterwards returns the merged entry, and nothing exactly when the entry it was merged into spells the SHIP ID with other letter cases |
| `TrustMerge.SpellingReachable` | hub/hub.go:463-493 | an entry and a candidate whose SHIP IDs differ in case only: the merge succeeds and the lookup finds nothing |
| `TrustLookup.LookupExact` | hub/hub.go:876-912 | for any registry and any three identifiers the lookup finds the first trusted entry, or else the first, that equals one of them and differs from none that is given on both sides, and nothing only if there is no such entry |
| `TrustLookup.FoundFields` | hub/hub.go:882-908 | an entry that is found has no SKI, fingerprint or SHIP ID other than the one asked for, and by a single identifier only an entry that carries it is found |
| `TrustLookup.MatchesExact` | hub/hub.go:450-461 | a candidate matches an entry exactly when a lookup by one of its identifiers alone would find that entry |
| `TrustLookup.HomeExact` | hub/hub.go:500-507 | matches are folded into the first trusted one, or else the first; the candidate is new exactly when nothing matches |
| `TrustLookup.MergedFields` | hub/hub.go:509-566 | every identifier and the address of a merged entry is the first one given, along the record merged into, the candidate, and the other matches in their order |
| `TrustOrder.OrderIndependent` | hub/hub.go:429-566 | adding partial views of devices with disjoint identifiers in any order and with any repetitions gives the same entries, one for each connected group of views and none for two devices |
| `TrustOrder.NeverConflicts` | hub/hub.go:463-493 | no such view ever conflicts, whatever was added before |
| `TrustOrder.SameGroups` | hub/hub.go:450-461 | two ways of grouping the same views by shared identifiers are the same |
| `TrustHub.ServiceDetails.NewServiceDetails` | api/servicedetails.go:88-109 | refused exactly without a SKI and without both other identifiers; a new record has a normalised SKI and no trust |
| `TrustHub.ServiceDetails.FoldFrom` | hub/hub.go:541-566 | missing identifiers are filled, present ones kept, trust is only ever added, also when source and destination are the same record |
| `TrustHub.Registry.FindMatches` | hub/hub.go:450-461 | the positions of the entries that share an identifier with the candidate, in order |
| `TrustHub.Registry.CheckConflicts` | hub/hub.go:463-493 | the running comparison of the identifiers collected so far |
| `TrustHub.Registry.PickCanonical` | hub/hub.go:500-507 | the first trusted match, or else the first |
| `TrustHub.Registry.FoldMatches` | hub/hub.go:509-516 | candidate and other matches are folded into the canonical record, all other records stay |
| `TrustHub.Registry.DropAbsorbed` | hub/hub.go:518-533 | deleting positions in descending order is the filter that keeps all others in their order |
| `TrustHub.Registry.MergeOrAddService` | hub/hub.go:429-536 | success leaves exactly the merged registry and returns the merged record; failure changes nothing |
| `TrustHub.Registry.ServiceForIdentifierFull` | hub/hub.go:876-912 | the first trusted record that answers, or else the first that does |
| `TrustHub.Registry.RemoveServiceEntry` | hub/hub.go:614-628 | exactly the given record is removed |
| `TrustSlot.RunKeepsSlot` | hub/hub_pairing.go:537-612 | over any run of pairings, registrations, removals, cancellations, closes, handshakes, reported SHIP IDs, discovered SKIs, certificates, merges of any candidates, restarts and expiries in which no event cancels the control unit or crowds it with another one, there is at most one control unit, trusted and complete, and an armed timer is its own |
| `TrustSlot.EventExact` | hub/hub.go:429-536 | every single event keeps that if and only if it neither cancels the control unit nor crowds it: a candidate that is a control unit has to match the one there is and be complete with its matches |
| `TrustSlot.AddedExact` | hub/hub_connections_client.go:216-235 | merging a candidate keeps it if and only if the merge is refused or the candidate suits; a complete one suits exactly when it shares an identifier with every control unit |
| `TrustSlot.RedialMakesTwo` | hub/hub_connections_client.go:224-229 | a run in which a control unit is replaced while it is being dialled, and then there are two |
| `TrustSlot.RegisteringMakesTwo` | hub/hub_pairing.go:112-135 | a run in which the application registers two control units, and then there are two |
| `TrustSlot.CancelExact` | hub/hub_pairing.go:225-241 | a cancellation keeps the slot, and the window something to protect, if and only if the entry it finds is no control unit |
| `TrustSlot.CancelOpensWindow` | hub/hub_pairing.go:225-241 | a run in which the control unit is cancelled while the timer is armed: another one is accepted, and then there are two |
| `TrustSlot.WindowProtects` | hub/hub_pairing.go:550-559 | while the timer is armed, at any point of any such run, a request with another certificate changes nothing |
| `TrustEvents.ClosedExact` | hub/hub_shipconnection.go:25-70 | a close arms the timer for the SHIP ID of the entry found if and only if it is not superseded and the entry is a control unit with a SHIP ID that is trusted or had completed; otherwise nothing changes |
| `TrustEvents.ClosedProtects` | hub/hub_pairing.go:550-559 | after such a close no sequence of requests from other certificates changes anything |
| `TrustEvents.StartedExact` | hub/hub.go:758-791 | a starting hub opens the window for the last trusted control unit that is not connected, and for none if there is none |
| `TrustEvents.ExpiredExact` | hub/hub.go:795-815 | after the timer has expired the next request from another certificate evicts the control unit |
| `TrustEvents.UnregisteredExact` | hub/hub_pairing.go:182-201 | the record found is gone and no other, no entry shares an identifier with it any more if none did before, and the timer is stopped exactly if it ran for it as a control unit |
| `TrustEvents.CancelledExact` | hub/hub_pairing.go:225-241 | the record found stays in its place without its trust, and nothing else changes |
| `TrustEvents.UpdatedExact` | hub/hub_shipconnection.go:114-150 | accepted hello makes only the record found trusted, and a completed handshake stops only the timer of that control unit |
| `TrustEvents.ReplacedExact` | hub/hub_pairing.go:548-551 | a request is in conflict exactly with the first complete trusted control unit, if its fingerprint is another one, and never with the holder of its own certificate |
| `TrustEvents.PairedExact` | hub/hub_pairing.go:565-608 | an accepted request leaves a trusted control unit that carries its fingerprint and SHIP ID, and opens the window for it exactly when it is not connected yet |
| `TrustEvents.BlankIgnored` | hub/hub_pairing.go:538-542 | a request with a blank certificate changes nothing |
| `TrustEvents.RegisteredOutcome` | hub/hub_pairing.go:118-175 | registering merges a trusted candidate, and opens the window exactly for a control unit with a SHIP ID that is not connected while the hub runs |
| `TrustEvents.UnregistrableIgnored` | api/servicedetails.go:88-109 | without a SKI and without both other identifiers nothing is registered |
| `TrustEvents.AddedOutcome` | hub/hub.go:429-536 | a merged candidate leaves a record that carries what it gave, a refused one changes nothing |
| `TrustEvents.ReportedExact` | hub/hub_shipconnection.go:76-92 | a record without a SHIP ID carries the reported one afterwards together with the SKI and fingerprint it had; one that has a SHIP ID is left alone |
| `TrustEvents.DiscoveredExact` | hub/hub_mdns.go:34-70 | a discovered SKI is learnt by the first trusted record with the SHIP ID, if it has no SKI and a well-formed fingerprint and no record has that SKI, and by none otherwise |
| `TrustEvents.CertifiedExact` | hub/hub_connections_client.go:216-235 | after a dial some record carries what the dialled one had, with the fingerprint of the certificate if it had none, and with its SKI only if the fingerprint was the known one |
| `TrustSlot.RefusalExact` | hub/hub_pairing.go:550-584 | a request that is refused changes the registry exactly when a device was there to be replaced and no window was open; then the slot is left empty |
| `TrustSlot.RefusalReachable` | hub/hub_pairing.go:550-571 | a connected control unit loses its place to a request that is then refused |
| `HubPairing.AddCuReplacementTracker.Stop` | hub/addcu_replacement_tracker.go:134-153 | the timer stops only for the device it runs for |
| `HubPairing.Hub.OnPairingSuccess` | hub/hub_pairing.go:537-612 | the window, the eviction of the previous device, the merge and the timer, as one event |
| `HubPairing.Hub.EvictService` | hub/hub_pairing.go:560-562 | the record is removed and the timer stopped if it runs for it |
| `HubPairing.Hub.TrustedAddCuDevice` | hub/hub.go:645-659 | the first trusted control unit that is complete |
| `HubPairing.Hub.UnregisterRemoteService` | hub/hub_pairing.go:182-201 | the record found is removed, and the timer stopped for a control unit |
| `HubPairing.Hub.HandleConnectionClosed` | hub/hub_shipconnection.go:40-72 | the timer starts for a control unit whose connection closed, unless the close is that of a superseded connection or of a failed handshake with an untrusted peer |
| `HubPairing.Hub.HandleHandshakeStateUpdate` | hub/hub_shipconnection.go:114-150 | accepted hello means trust, a completed connection stops the timer |
| `HubPairing.Hub.ReportServiceShipId` | hub/hub_shipconnection.go:76-92 | a record that gains its SHIP ID is merged with the one that carries it already |
| `HubPairing.Hub.AddService` | hub/hub.go:571-577 | a service is merged or refused, and the answer says which |
| `HubPairing.Hub.HandleAddCuReplacementTimeout` | hub/hub.go:795-815 | an expired timer tracks nothing, the registry is as it was, and the listener is reactivated unless the SHIP ID now belongs to a trusted device of another kind |
| `HubPairing.Hub.CancelPairing` | hub/hub_pairing.go:225-241 | the entry that is found loses its trust and stays, and so does the timer |
| `HubPairing.Hub.RegisterRemoteService` | hub/hub_pairing.go:118-179 | the trusted candidate is merged, and a timer starts for a merged control unit that is not connected, once the hub has started |
| `HubPairing.Hub.StartAddCuReplacementTimers` | hub/hub.go:758-791 | the loop starts a timer for every trusted control unit that is not connected; the last one stands |
| `HubPairing.Hub.ReportMdnsEntry` | hub/hub_mdns.go:34-70 | a trusted entry without a SKI learns the discovered one and is merged |
| `HubPairing.Hub.ReadRemoteCertificate` | hub/hub_connections_client.go:216-235 | an entry learns from the certificate what it did not know, the SKI only if the fingerprint was known, and is merged |
| `ConnectionRegistry.MostRecentWins` | hub/hub_connections_registry.go:157-175 | over any sequence of registrations and closes a connection is registered for a SKI exactly when it is the latest that registered there and has not closed since |
| `ConnectionRegistry.AbsentExact` | hub/hub_connections_registry.go:282-293 | a SKI has no connection exactly when none is current |
| `ConnectionRegistry.DisplacedCloseSilent` | hub/hub_shipconnection.go:25-39 | closing a connection that was displaced by one still registered changes and reports nothing |
| `ConnectionRegistry.ReportExact` | hub/hub_shipconnection.go:25-39 | a close is reported exactly when no connection to that SKI is left |
| `ConnectionRegistry.HoldsClosedExact` | hub/hub_connections_registry.go:157-192 | the registry holds a connection that has closed if and only if that connection closed, registered after that, and is current |
| `ConnectionRegistry.ClosedStays` | hub/hub_connections_registry.go:179-192 | a connection that closes and then registers is held |
| `ConnectionRegistry.NeverHoldsClosed` | hub/hub_connections_registry.go:157-192 | if connections register before they close, no closed one is ever held |
| `HubConnections.OneEndAdopts` | hub/hub_connections_registry.go:57-79 | of two ends with different SKIs that hold a connection to each other exactly one answers that it takes a new one, and an end that holds none always does; the program only logs the answer |
| `HubConnections.ResolveExact` | hub/hub_connections_registry.go:57-62 | the end that takes the new connection is the one whose SKI is bigger at the first character in which they differ, or longer |
| `HubConnections.Hub.DoubleConnectionAction` | hub/hub_connections_registry.go:66-79 | what an end answers about a new connection |
| `DoubleConnections.KeepSameOrNone` | hub/hub_connections_registry.go:136-175 | what really decides: two hubs at rest hold the same connection if both registered the same one last, and otherwise neither holds any |
| `DoubleConnections.CrossingLosesBoth` | hub/hub_connections_registry.go:35-40 | a simultaneous crossing: two connections registered in opposite orders are both lost at both ends |
| `HubConnections.DialState.AdoptSocket` | hub/hub_connections_dialstate.go:32-40 | the adopted socket of a superseded dial is closed at once |
| `HubConnections.DialState.Supersede` | hub/hub_connections_dialstate.go:43-52 | superseding closes the current socket |
| `HubConnections.Hub.BeginDial` | hub/hub_connections_client.go:172-187 | a dial begins, with its mark, unless the SKI is connected or being dialled |
| `HubConnections.Hub.SupersedeForIncoming` | hub/hub_connections_registry.go:90-101 | the marked dial is retired, registered connections are not touched |
| `HubConnections.Hub.RegisterConnection` | hub/hub_connections_registry.go:157-175 | the connection replaces the registered one, which is retired unless it is the same |
| `HubConnections.Hub.UnregisterConnectionIfMatch` | hub/hub_connections_registry.go:282-293 | only the registered connection itself is removed |
| `HubConnections.Hub.HandleConnectionClosed` | hub/hub_shipconnection.go:25-39 | a superseded connection's close is not reported |
| `DialDiscipline.DialsDisciplined` | hub/hub_connections_client.go:166-254 | under every interleaving of dials and incoming handshakes: one dial in flight for a known SKI, exactly the marked one; a superseded dial's current socket is closed in whatever order it was adopted; a dial that saw it was superseded never registers |
| `DialDiscipline.BeginExact` | hub/hub_connections_client.go:172-181 | a dial to a known SKI begins exactly when that SKI is neither registered nor being dialled |
| `DialDiscipline.DialSucceeds` | hub/hub_connections_client.go:166-254 | a dial that nobody interferes with goes on after a failed attempt, registers its connection and takes its mark away |
| `DialDiscipline.DialRetired` | hub/hub_connections_registry.go:90-101 | a dial that an incoming handshake finds and retires ends without registering, and its socket is closed |
| `DialDiscipline.FailureExact` | hub/hub_connections_client.go:190-206 | a failed attempt ends a dial exactly if it was the last or the dial is superseded |
| `DialDiscipline.IncomingExact` | hub/hub_connections_registry.go:157-192 | incoming connections are registered as they come and removed when they are gone |
| `RingBuffer.SeenExact` | pairing/ring_buffer.go:161-172 | in a ring that stands for a log, a pair with an algorithm is found exactly when it is among the last as many as the ring holds |
| `RingBuffer.CurrentIsLast` | pairing/ring_buffer.go:202-222 | the current entry is the last recorded, and absent exactly when nothing was recorded |
| `RingBuffer.WrittenStands` | pairing/ring_buffer.go:175-190 | recording a pair keeps the ring standing for the log with that pair at its end |
| `RingBuffer.WriteAllRecent` | pairing/ring_buffer.go:175-190 | recording a sequence of pairs shifts the contents by as many places and appends them |
| `RingBuffer.ConfiguredWindow` | pairing/ring_buffer.go:59-62 | a ring finds a pair exactly when it is among the last as many as are configured, but at least ten |
| `RingBuffer.ShrunkKeepsFront` | pairing/ring_buffer.go:121-136 | a ring that is made smaller keeps the places from the front on, and the index modulo the new size |
| `RingBuffer.EnlargedKeepsLast` | pairing/ring_buffer.go:121-136 | a ring of n that is reloaded into a larger one still finds each of the last n recorded before and after, however many follow |
| `RingBuffer.EnlargedCurrent` | pairing/ring_buffer.go:202-222 | after enlarging, the current entry is still the right one exactly when the saved index was not zero or nothing had been recorded |
| `RingBuffer.EnlargedLosesCurrent` | pairing/ring_buffer.go:202-222 | a ring of ten that was filled exactly once reports no current entry after enlarging |
| `RingBuffer.UnusedStart` | pairing/ring_buffer.go:202-222 | for any contents, a ring about to write its unused first place counts as empty, and otherwise the current entry is the most recent place if it is used |
| `RingBuffer.RingBufferHistoryProvider.NewRingBufferHistoryProvider` | pairing/ring_buffer.go:59-81 | a new ring holds at least ten entries and what the stored state loads as, and is refused exactly when that state is |
| `RingBuffer.RingBufferHistoryProvider.LoadFromPersistence` | pairing/ring_buffer.go:100-145 | the loop and the index adjustment load exactly what was stored, or refuse it and change nothing |
| `RingBuffer.RingBufferHistoryProvider.HasSeenDigest` | pairing/ring_buffer.go:161-172 | the loop finds a pair exactly when the ring holds it |
| `RingBuffer.RingBufferHistoryProvider.RecordPairing` | pairing/ring_buffer.go:175-199 | the next place is overwritten, the index advances with wrap-around, and a failed save is ignored |
| `RingBuffer.RingBufferHistoryProvider.GetCurrentEntry` | pairing/ring_buffer.go:202-222 | the place before the next one, if it is used |
| `PairingRecord.HexRoundTrip` | pairing/hub_integration.go:257-259 | hexadecimal text decodes to the bytes it was made of |
| `PairingRecord.UppercaseDecodes` | api/shippairing.go:543-553 | text of uppercase hexadecimal digits decodes, and encodes back to itself |
| `PairingRecord.ValidateExact` | api/shippairing.go:584-641 | a record is refused for the first of eleven rules that it breaks, and valid exactly when it breaks none |
| `PairingRecord.MessageUnambiguous` | pairing/hmac.go:86-101 | two valid records for one receiver with equal messages agree in all ten signed fields, although the announcer's SHIP ID is free text |
| `PairingRecord.AmbiguousReceivers` | pairing/hmac.go:86-101 | for two different receivers there are valid records that sign alike if and only if one receiver is the other, no blank, followed by a fingerprint field and the beginning of an announcer field |
| `PairingRecord.KeyUnambiguous` | pairing/hmac.go:77-83 | with nonces of the specified length the key determines secret and nonce |
| `PairingRecord.ConstructKey` | pairing/hmac.go:77-83 | the fresh buffer holds the secret followed by the nonce |
| `PairingTxt.ConvertToArray` | mdns/mdns.go:1497-1513 | one string for every field with a value, in the fixed order |
| `PairingTxt.ParseTxt` | mdns/helper.go:36-52 | keys are folded, strings without an equals sign skipped, and keys that differ at most in case refused |
| `PairingTxt.CutExact` | mdns/helper.go:36-52 | a string is cut at its first equals sign, if it has one |
| `PairingTxt.ParseExact` | mdns/helper.go:36-52 | a list of strings is refused exactly when two of them have keys that differ at most in case; otherwise every key has the value of the one string that carries it |
| `PairingTxt.ProcessExact` | mdns/mdns.go:981-1030 | elements are accepted as a record exactly when they give a valid record all its eleven values |
| `PairingTxt.MessageIsWireText` | pairing/hmac.go:86-101 | the signed message is the text of the first ten fields as they go over the wire |
| `PairingTxt.WireRoundTrip` | mdns/mdns.go:966-1080 | a record that is encoded, parsed and rebuilt comes back unchanged if it is valid and not at all otherwise |
| `PairingBrowse.CacheIsLatest` | mdns/mdns.go:966-1042 | the cache holds, for every service instance, the record of the latest report that was a removal or carried a valid record |
| `PairingBrowse.DeliveredExact` | mdns/mdns.go:1024-1060 | a record is handed over exactly when it is valid and that latest report did not carry the same one: refreshes are ignored, corrections are not |
| `PairingBrowse.MdnsManager.ProcessShipPairingMdnsEntry` | mdns/mdns.go:966-1060 | one report: removal, refusal, refresh or a new record, with or without a callback |
| `PairingListener.AcceptancesDistinct` | pairing/listener.go:191-301 | over any run with any activations, snapshots and restarts from saved state, the digests of any size + 1 consecutive acceptances differ and no activation accepts twice |
| `PairingListener.LostSaveReplays` | pairing/ring_buffer.go:192-198 | when the save after an acceptance failed, a restarted listener with the same secret accepts the same record again if and only if the history it has loaded does not hold the digest |
| `PairingListener.ReplayReachable` | pairing/ring_buffer.go:192-198 | a run from a new listener in which one record is accepted twice |
| `PairingAcceptance.AcceptedExact` | pairing/listener.go:191-301 | the log grows if and only if the listener listens, the record is valid, names this device's SHIP ID, certificate and curve, its digest is the one that the secret, the nonce and the ten signed fields give, and that digest is not among the last accepted; then listening ends, otherwise at most a failure is remembered |
| `PairingAcceptance.RefusalExact` | pairing/listener.go:191-263 | what a refused record is refused for, exactly |
| `PairingAcceptance.FirstAccepted` | pairing/listener.go:155-174 | of several records the first that deserves it is accepted and the others are not looked at |
| `PairingAcceptance.OthersIgnored` | pairing/listener.go:286-301 | an idle listener, and any listener of a record for another SHIP ID, is left as it was |
| `PairingAcceptance.AcceptedWereSigned` | pairing/listener.go:191-283 | over any run, whatever was accepted in an activation was the digest of a valid record for this device that the secret of that activation signs |
| `PairingAcceptance.StartExact` | pairing/listener.go:57-106 | an idle listener starts with sixteen bytes of secret in a new activation, and any other start changes nothing |
| `PairingAcceptance.RestartExact` | pairing/ring_buffer.go:100-145 | a restarted listener is idle, has forgotten all but its history, and goes on with the stored one |
| `PairingHub.AcceptanceExact` | pairing/listener.go:267-283 | an accepted request is recorded whatever the hub does: deferred by the window it changes nothing, otherwise the old holder is gone, and the announced device holds the place unless the merge is refused, which changes nothing more |
| `PairingHub.DeferredRetry` | hub/hub_pairing.go:550-559 | a deferred request is accepted again after the timer, with the same secret, if and only if its digest is no longer among the last that the history holds; until then it is refused as a replay |
| `PairingDevices.PairingListener.StartListening` | pairing/listener.go:57-106 | listening starts with a secret of the right length and only if it was not active |
| `PairingDevices.PairingListener.StopListening` | pairing/listener.go:125-135 | an active listener stops and forgets its secret, an inactive one is left alone |
| `PairingDevices.PairingListener.HandlePairingRequest` | pairing/listener.go:191-283 | every check in its order, and what each outcome changes |
| `PairingDevices.PairingListener.HandleMdnsDiscovery` | pairing/listener.go:286-301 | records for others and records while not listening change nothing |
| `PairingDevices.PairingListener.ProcessPendingEntries` | pairing/listener.go:155-174 | records are evaluated one after the other until one is accepted |
| `PairingDevices.PairingAnnouncer.EnablePairingService` | pairing/hub_integration.go:85-107 | a configuration with a known mode and a secret of the right length is taken over, anything else refused |
| `PairingDevices.PairingAnnouncer.AnnounceToDevice` | pairing/hub_integration.go:110-175 | an announcement succeeds exactly when it is enabled, none is running, everything it needs is there and the record is valid; then that record is published |
| `PairingDevices.PairingAnnouncer.StopAnnouncement` | pairing/hub_integration.go:183-204 | a running announcement is withdrawn and forgotten, or stays as it is |
| `PairingDevices.AnnouncedValid` | pairing/hub_integration.go:134-160 | the record built for a target is valid exactly when both SHIP IDs are not blank and both fingerprints are 64 uppercase hexadecimal digits |
| `PairingDevices.AnnouncementAccepted` | pairing/listener.go:191-283 | a record announced for a listener's SHIP ID, fingerprint and secret arrives unchanged and is accepted exactly when its digest is not in the history |

## Left out

- Real time, jitter and the waits before closing: a timer is armed with a kind and a duration and may fire at any time;
  timer goroutines and their shutdown are not modelled.
- Interleavings inside one handler and the order of locks.
- `json.Marshal`, `json.Unmarshal` and `json.Compact`: keys and leaves are opaque texts, incoming text is compact, and
  each parser's view of a foreign message is an arbitrary part of that message. Nil and empty lists of formats are not
  told apart.
- The SPINE write path (`ship/connection_serialization.go:55-78`). Of the handshake messages only the access methods are
  taken through their texts; the others are made of constants and numbers. Which messages of an arbitrary peer go to
  SPINE is an event of its own, and the buffer for early ones is modelled beside the handshake, not inside it.
- The number of connection-closed notifications: termination messages report a close outside `shutdownOnce`, so
  "exactly one" is not claimed.
- SetSmeState: the error stored with a state and the report of the state to the hub are left out.
- EndHandshakeWithError: the report of the error to the hub is left out.
- CloseConnection: the notification of the hub is left out. Run again from within its own termination message it would
  wait for itself; a close of a connection that is already closed is a step without effect.
- HandleState: split into three methods (hello choice, the states up to hello, the later ones), which call one another as
  the one method of the program calls itself.
- Safety: writes succeed, and the only timeouts are those of a pending server that may wait; other runs are covered by
  `Agreement`, `CompletionNeedsNames` and `RunWalks`.
- DropAbsorbed: the descending sort is the reversal of the ascending list of matches, not a sorting algorithm.
- MergeOrAddService: the candidate is an object; the missing candidate, which is refused, is not modelled.
- Upper: letter case and white space are those of ASCII; Unicode folding and trimming are not modelled.
- OrderIndependent: the IPv4 address, which keeps the first value seen, is not compared, and fingerprints are compared in
  upper case.
- RegisterRemoteService: stopping the listener, approving a waiting handshake and the search that follows are left out.
- ReportMdnsEntry: format checks, connected SKIs and the auto-accept flag are inputs or left out, as is what follows the
  merge.
- KeepSameOrNone: the two ends have come to rest; nothing is said about connections that are still being closed.
- HandleConnectionClosed: attempt counters, callbacks and the announcement lifetime timer are left out.
- DialsDisciplined: connectFoundService is modelled by its atomic sections; certificate checks, merging and the wait for
  the superseding connection are outcomes of those sections.
- LoadFromPersistence: of a ring that is made smaller the places at the front survive whatever their age; nothing is
  claimed about which of the recorded digests these are.
- ProcessPendingEntries: the order in which a map is traversed is an input.
- HMAC-SHA256 is a function that is passed in, with results of 32 bytes where that matters.
- TLS, certificates, websockets, HTTP, Avahi and Zeroconf, QR codes, logging, retry counters and interface refresh.
