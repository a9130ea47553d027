# VoiceApp: a verified model

VoiceApp is a self-hosted voice chat: a management server (TCP), a voice relay (UDP), a client SDK and a
desktop client that share one binary protocol. This project models its three hard parts in Dafny and proves
what they promise.

**A. The distributed system.** `System` is a transition system with one handler per TCP connection, each with
its own list of work still to do, so that changing the users map, writing the reply, sending the relay event and
broadcasting are separate steps that interleave freely with those of all other handlers, of the clients and of the
relay. The login snapshot is not atomic either: users are visited one by one while others go on changing. Handlers
may panic over packets that are too large, and failed broadcast writes end them. The main results are:

- *presence convergence*: a client's participants list, replayed over everything under way to it and everything owed by
  handlers in the middle of a request, shows only users logged in at the server, with their names and flags, and lacks
  none but those whose login a panic keeps from ever being announced and whom the client's own login response has not
  shown it (`Converges`);
- *settling*: left alone, the system comes to rest within a bounded number of steps, whatever their order; the lists
  that clients then show are right in the same sense, every request is answered, and the relay mirrors the server
  (`ComesToRest`);
- *chat conservation*: between any author and the application of any reader no message is lost, duplicated or
  reordered (`ChatIsConserved`);
- *relay simulation*: the relay's sessions, with its queued and owed events, are exactly the connections that nobody
  has begun to tear down, with their voice flags; those of panicked handlers stay for ever (`RelaySimulation`).

From the same invariants follow: no user comes back after the relay has handled the disconnection, and every reply
completes the waiter of its own request, tells the truth (`RepliesAreTrue`), and with the others tells a client its
own state in voice (`RepliesTellVoice`), while events tell it of others only (`NobodyIsToldOfThemselves`). What holds
under a condition only is stated with the exact condition: when the address index is exact (`IndexAgreement`), when
every user in voice has an address (`AddressAgreement`), which announcements mislead observers
(`AnnouncementIsRight`), what a failed reply loses (`FailedReplies`), when the relay can be made to panic
(`WhenRelayPanics`), and how entries are left behind (`HowEntriesAreAbandoned`). `Example` holds runs from the initial
state into the situations in which presence, the address index and the relay fall short.

**B. Wire codec and reassembly.** Functions give the wire format; the reader, writer, encoder and decoder are objects
and loops proved against them. Where each field stands is stated byte by byte (`DecodedFields`, `EncodedFields`). The
codec round-trips, normalises and is prefix-free; both reassembly loops refine one parse that does not depend on how
the byte stream is split into reads. Where recovery ends is exact, too: which buffers block their connection for good
(`BlocksExactly`), and when the splitting of a stream with an error in it decides what is lost (`ChunkingDecides`).

**C. Sample streams.** The capture pipeline, the playback callback and the notification player are objects with
buffers; they conserve samples whatever the sizes of the frames and callbacks, and packets are numbered correctly
across wrap-around.

| Files | Contents |
|---|---|
| `Bytes`, `Utf8Text`, `Utf8Proofs`, `Sequences`, `Packets` | integers, text, packets |
| `Codec`, `Decoding`, `CodecProofs`, `WireFormat`, `CodecIO` | wire format, its proofs, its positions, the imperative codec |
| `Framing`, `FrameRoom`, `Recovery` | reassembly, payloads without room, the limits of recovery |
| `Replica`, `Management`, `RelayState`, `System` | the participants list, requests, the relay, the transition system |
| `Registration`, `Link`, `Progress`, `Invariants` | what every reachable state satisfies |
| `Presence`, `PresenceSteps`, `Listings`, `Crashes`, `Convergence` | presence convergence, what login responses show, what panics leave behind |
| `ChatDelivery`, `FailedReplies`, `Settling` | chat messages over whole runs, failed writes, how the system comes to rest |
| `Lifecycle`, `RelaySafety`, `RelayTheorems`, `VoiceAddresses` | the relay against the management server |
| `RequestTheorems`, `Replies`, `Echoes`, `PacketCapacity`, `WireTheorems` | correlation, what replies and events say, size limits, packet queues as byte streams |
| `ServerHandler`, `HandlerRefinement`, `RelayServer`, `SdkClient` | the server, relay and client objects, and how they refine `System` |
| `Example` | runs that lead to the situations the theorems are about |
| `StreamBlocks`, `Wrapping`, `Capture`, `Playback` | sample streams |

`dafny verify dfyconfig.toml` checks everything.

## Assumptions

They stand openly in the guards of the steps in `System`, because several results are false without them:

- A new connection's address is not in the users map and belongs to no unfinished handler; tokens of different
  connections differ; the user id counter has not reached 2^64 (`Accept`), nor has a client's request id counter
  (`Draw`).
- No handler lags behind the broadcast channel (`Forward`), and writes of replies succeed (`Perform`). A failed write of
  a *broadcast* is modelled (`WriteFails`); the lemmas of `FailedReplies` say exactly what a failed reply does to
  observers, to the relay and to chat messages.
- Clients follow the SDK: one valid login first; join, leave and mute only when logged in; their own id in mute packets
  (`MaySend`). `AnnouncementIsRight` and `AnnouncementAboutOthers` say exactly when other packets mislead observers.

Not assumed: that packets fit (handlers panic over those that do not, `Panic`), that requests are queued in the order in
which their ids were drawn, or that clients authenticate with the relay before they join voice; the theorems that need
the last (`Ordered`) say so.

## Where code and documentation differ

The model follows the code. The sequence diagram of the server's README draws the relay event before the join
response and `UserConnected` at login; the code writes the response first (server/src/management/handler.rs:230-235)
and sends `UserConnected` when the connection is accepted (server/src/management/server.rs:54). The same README says
that the relay answers failed authentications; the code only logs unknown tokens (server/src/voice/server.rs:113-115).
The reassembly loops treat `PacketTooShort` as "wait for more data", also when the frame is complete and its fields
can never fit; such a frame blocks the connection for good (`BlocksExactly`).

## Model

| member | source | states |
|---|---|---|
| Convergence.Converges | server/src/management/handler.rs:152-378 | Presence convergence: in every reachable state, replay at a logged-in client what is on its connection, the reply about to be written, the broadcasts not yet passed on, and what the handlers that still run owe (interleaved in any way). Then every entry other than its own is that of a logged-in user, with name and flags; and all other logged-in users are there if and only if the response to the client's own login, as recorded among its completed requests, lists all users whose handlers died over a login response that did not fit |
| Convergence.SomethingIsPending | server/src/management/handler.rs:36-108 | In every reachable state there are such interleavings of what the handlers owe |
| Convergence.UnannouncedIsShown | desktop/src/view/room.rs:684-742 | A user whose handler died over its login response ends up in a logged-in client's list if and only if the response to the client's own login lists the user |
| Listings.ListingStep | desktop/src/view/room.rs:684-742 | Every step keeps: a logged-in client's list contains a user about whom nothing has ever been broadcast if and only if the response to its own login lists the user |
| Convergence.QuiescentClientIsRight | desktop/src/view/room.rs:684-742 | When nothing is under way, the list a client shows, as it stands, contains only logged-in users, with names and flags, and all of them if and only if the response to its own login lists those whose logins were never announced |
| Settling.ComesToRest | server/src/management/handler.rs:36-108 | Settling: from any reachable state, steps of handlers, deliveries and the relay alone, in any order, come to an end after no more than `Total` steps. Then the list of every logged-in client contains only logged-in users, with names and flags, and lacks none but those whose logins were never announced and whom its own login response does not list; every request on a served connection has been answered, and the relay mirrors the server |
| Settling.MovesUntilRest | server/src/management/handler.rs:41-106 | Some such step is possible if and only if something is left to be read, done, passed on, delivered or handled |
| Settling.EndExists | server/src/management/handler.rs:41-106 | Every reachable state can be brought to rest in this way |
| Convergence.EntryConverges | desktop/src/view/room.rs:684-742 | The same for one user's entry: it becomes the server's, or stays missing if the login is never announced |
| Convergence.CrashedOwed | server/src/management/handler.rs:178-203 | A handler that panicked over a chat message owed nothing else about its user; one that panicked over its login response leaves a user about whom nothing was ever broadcast |
| Convergence.PresenceStep | server/src/management/handler.rs:36-108 | Every step of the system keeps the presence invariant |
| FailedReplies.ObserversAfterFailure | server/src/management/handler.rs:152-319 | A failed write of a reply changes the users map but skips the announcement; an observer who was right about the sender stays right if and only if there was nothing to announce, which is spelt out per request |
| FailedReplies.RelayAfterFailure | server/src/management/handler.rs:214-277 | It also skips the relay event; a session that matched the sender still does if and only if the voice flag has not changed |
| FailedReplies.ChatAfterFailure | server/src/management/handler.rs:280-319 | And it loses the sender's message if and only if the request was a chat message |
| Convergence.AnnouncementIsRight | server/src/management/handler.rs:152-354 | For every packet a client may send: an observer that was going to be right about the sender is still right with the announcement appended, if and only if the packet is not a valid login by a user in voice or muted, and not a mute packet with another id that changes the own flag of a logged-in sender |
| Convergence.AnnouncementAboutOthers | server/src/management/handler.rs:330-354 | About any other user an observer keeps its entry if and only if the packet is not a mute packet that claims this user's id with another flag |
| Crashes.HowEntriesAreAbandoned | server/src/management/handler.rs:89-95 | A step leaves a user's entry behind without a running handler if and only if it is a failed broadcast write or a panic of the user's own handler |
| Crashes.AbandonedStays | server/src/management/server.rs:53-70 | An abandoned entry stays in the users map, unchanged, for the rest of every run |
| Crashes.OnlyServingOverflows | protocol/src/packet.rs:248-253 | In every reachable state a packet that cannot be encoded comes up in the main loop only, and is a login response with its announcement still to come, or the broadcast of a chat message |
| ChatDelivery.ChatIsConserved | server/src/management/handler.rs:280-319 | Over any run from a reachable state during which author and reader stay connected, the messages of the author that the reader's application is told about, followed by what is under way between the two, are what was under way at first, followed by what the author has sent: no chat message is lost, duplicated or reordered |
| ChatDelivery.MessagesAreTold | sdk/src/network/event_handler.rs:169-181 | Over any run the application is told about exactly the chat messages that its client receives, in order, with author, time and text |
| ChatDelivery.OneMessage | server/src/management/handler.rs:280-309 | How these statements count: a message counts once for its author and not for anyone else, a request once |
| ChatDelivery.ConversationsAgree | server/src/management/broadcast.rs:13-31 | The applications of two clients with nothing under way at the ends of a run have been told about the same chat messages, with the same times, in the same order |
| ChatDelivery.DeliveryInOrder | server/src/management/handler.rs:89-105 | A client receives the chat messages broadcast since it subscribed, all of them, once, in the order of the channel |
| ChatDelivery.BroadcastInOrder | server/src/management/handler.rs:280-309 | An author's messages reach the broadcast channel in the order sent |
| Presence.StaleIsHarmless | sdk/src/network/event_handler.rs:57-103 | Replaying undelivered old broadcasts over the newest entry of a user leads back to it |
| PresenceSteps.BroadcastPresence | server/src/management/handler.rs:139-149 | Moving a packet from the owed ones to the broadcast channel keeps every client's outlook |
| PresenceSteps.FinishSnapshotPresence | server/src/management/handler.rs:178-197 | A snapshot taken while users change is right once the broadcasts after subscription are replayed over it |
| PresenceSteps.HangupPresence | server/src/management/handler.rs:357-378 | Removing a user and announcing it keeps every client's outlook |
| Replica.RoomPage.OnServerEvent | desktop/src/view/room.rs:684-742 | The room page changes its list as the packet behind the event says |
| Replica.EventsTell | sdk/src/network/event_handler.rs:71-188 | The application is told about a packet by an event of its kind with its fields, for all seven kinds; about requests, other responses and voice data it is told nothing |
| Replica.LatestCounts | desktop/src/view/room.rs:684-694 | A listing is taken over entry by entry: of two entries with one id the later one counts, and nobody is left out or added |
| Replica.EntriesAreIndependent | desktop/src/view/room.rs:684-742 | A packet acts on each user's entry separately, so packets about different users commute |
| Replica.ReplayTwice | desktop/src/view/room.rs:684-742 | Replaying a sequence of packets a second time changes nothing |
| Replica.StaleReplay | desktop/src/view/room.rs:684-742 | Replaying the end of a history over the entry that the whole history leads to is harmless |
| Replica.FlagsSettle | desktop/src/view/room.rs:702-715 | Without joins and departures each flag ends as it was last set, or as it was |
| Replica.AnnouncementApplies | desktop/src/view/room.rs:684-742 | An announcement brings an up-to-date entry up to date again |
| Registration.RegistrationStep | server/src/management/server.rs:46-87 | Entries belong to the connection at their address; active connections have one; addresses of unfinished handlers and tokens stay distinct |
| Registration.StepIsLocal | server/src/management/handler.rs:111-136 | A step of a handler touches no other connection and no other user's entry |
| Invariants.BaseStep | server/src/management/handler.rs:36-108 | Every step keeps what is known about each connection, its login, its requests and the broadcasts it will hear |
| RelayTheorems.RelaySimulation | server/src/voice/server.rs:58-90 | In every reachable state, handling the queued and then the owed events makes the sessions exactly the connections whose handlers run in their main loop, are about to, or have panicked, with their tokens and voice flags |
| RelayTheorems.IdleRelayIsRight | server/src/voice/server.rs:58-90 | With nothing queued or owed the sessions are right as they stand |
| RelayTheorems.SessionLeaks | server/src/management/server.rs:53-70 | The session of a handler that has panicked is there in every later state, and its end is never reported |
| RelayTheorems.WhichSessionsLeak | server/src/management/server.rs:53-70 | With nothing queued or owed, the sessions without a running handler are exactly those of handlers that have panicked |
| RelayTheorems.EventDiscipline | server/src/management/server.rs:46-71 | The events of each user are one connection with its token, then joins and leaves, then at most one disconnection, and that only for a connection being torn down |
| RelayTheorems.NoResurrection | server/src/voice/server.rs:77-88 | Once the relay has handled a user's disconnection, the user has no session and receives nobody's voice in any later state of the run |
| VoiceAddresses.AddressAgreement | server/src/voice/server.rs:67-71 | Throughout a run every user in voice has an address if and only if every joining that the relay handles is that of a user who has one |
| VoiceAddresses.OrderedJoinsFindAddresses | sdk/src/client.rs:81-107 | In every run in which clients join voice only after voice authentication, all joinings find their user's address |
| VoiceAddresses.RecipientsHaveAddresses | server/src/voice/server.rs:143-146 | In such a run each user in voice has an address in every state, so the unwrap never fails |
| RelayState.EventKeepsAddressed | server/src/voice/server.rs:58-90 | An event leaves every user in voice with an address if and only if it is not the joining of a known user without one |
| RelayTheorems.IndexIsAuthenticated | server/src/voice/server.rs:166-169 | Every index entry was made by an authentication from that address with that user's own token |
| RelayTheorems.IndexAgreement | server/src/voice/server.rs:77-88 | Throughout a run the address index is exactly the inverse of the sessions' addresses if and only if all its authentications are regular |
| RelayState.AuthenticateKeepsIndex | server/src/voice/server.rs:156-169 | An authentication keeps an exact index exact if and only if the user has no other address and the address no other user |
| RelayState.EventKeepsIndex | server/src/voice/server.rs:77-88 | Events keep an exact index exact, including the search for the address of a user who left |
| RelayState.DepartureForgetsUser | server/src/voice/server.rs:78-85 | After a departure no address maps to the user if and only if at most one did before |
| RelayServer.DepartedVoice | server/src/voice/server.rs:117-153 | After a departure some datagram makes the relay send voice data in the departed user's name if and only if more than one address led to the user before, and there are users in voice who all have addresses |
| Lifecycle.UnbrokenMeansDisciplined | server/src/voice/server.rs:58-90 | A user's events make sense to the relay if and only if they are disciplined |
| Lifecycle.BeginTells | server/src/management/handler.rs:214-277 | The event that a request sends is exactly its change of the voice flag |
| Lifecycle.LifeInvStep | server/src/management/server.rs:46-71 | Every step keeps: the events sent and owed tell each connection's life as it is |
| RelaySafety.OnEventsMatch | server/src/voice/server.rs:58-90 | Sessions follow a life that stays unbroken |
| RelaySafety.RelayInvStep | server/src/voice/server.rs:58-90 | Every step keeps the relay's sessions, authentications and addresses in line |
| RelayServer.VoiceRelayServer.constructor | server/src/voice/server.rs:23-29 | The relay starts without sessions |
| RelayServer.VoiceRelayServer.HandleEvent | server/src/voice/server.rs:58-90 | Each event changes sessions and index as it should: a new session without voice or address, the voice flag, or the end of the session and of one address that leads to it |
| RelayServer.VoiceRelayServer.FindAddress | server/src/voice/server.rs:78-81 | The linear search finds an address of the user if there is one |
| RelayServer.VoiceRelayServer.FindToken | server/src/voice/server.rs:105-109 | The search finds a session with the token if there is one |
| RelayServer.VoiceRelayServer.HandlePacket | server/src/voice/server.rs:96-128 | Each datagram is answered, forwarded or ignored as its decoding and source address demand; `DatagramOutcome` and `ForwardingCorrect` spell it out |
| RelayServer.VoiceRelayServer.AuthenticateUser | server/src/voice/server.rs:156-185 | Authentication records the address in both maps and answers success |
| RelayServer.VoiceRelayServer.ForwardVoicePacket | server/src/voice/server.rs:132-153 | Exactly the sessions in voice other than the sender's get one datagram each, at their address, with the sender's id and the sequence number, timestamp and data given; or a panic if and only if one of them has no address |
| RelayServer.ForwardingCorrect | server/src/voice/server.rs:117-153 | A user gets a datagram if and only if the user is in voice and is not the one whom the sender's address belongs to: exactly one, at the user's address; each decodes to the sequence number, timestamp and data received, in the name of the address's user whatever id was claimed, and is no longer than the one received |
| RelayServer.NobodyHearsThemselves | server/src/voice/server.rs:143-146 | As long as the index is exact, nothing is sent back to the address that voice data came from |
| RelayServer.DatagramOutcome | server/src/voice/server.rs:96-128 | With the token of a session a sender is let in as its user, and told so; an unknown token, voice data from an unknown address, and anything else that is not voice data have no effect and no answer |
| RelayServer.ForwardedDecodes | server/src/voice/server.rs:140-141 | Renaming decoded voice data keeps it encodable, so forwarding cannot panic there |
| RelayServer.RelayNeverPanics | server/src/voice/server.rs:132-153 | In no state of a run whose joinings find addresses, or whose clients authenticate before joining, does a datagram make the relay panic |
| RelayServer.WhenRelayPanics | server/src/voice/server.rs:132-153 | Some datagram makes the relay panic if and only if some address in the index belongs to a user for whom there is another user in voice without an address |
| RelayServer.DatagramIsStep | server/src/voice/server.rs:96-128 | A datagram leaves the relay's state alone or is an authentication step of the system |
| RelayServer.AuthenticationAnswered | server/src/voice/server.rs:104-116 | A client with the token of a live session is let in and gets the answer it expects |
| RequestTheorems.RepliesFindTheirWaiters | sdk/src/network/tcp_client.rs:209-216 | In every reachable state the next packet completes exactly the waiter of the request it answers, with the type its decoder expects; broadcasts complete none |
| RequestTheorems.CompletedOnceAndRightly | sdk/src/network/tcp_client.rs:209-216 | Completed requests have their own answers and none is completed twice, in whatever order commands queue the ids they have drawn |
| RequestTheorems.WaitingMeansUnderWay | sdk/src/network/tcp_client.rs:77-99 | A client waits for exactly the requests that are under way |
| RequestTheorems.NobodyIsLeftWaiting | sdk/src/network/tcp_client.rs:77-99 | With nothing under way on a connection every request has been answered |
| RequestTheorems.LoginTellsOwnId | server/src/management/handler.rs:189-197 | Every login response carries the id of its own connection |
| Replies.RepliesAreTrue | server/src/management/handler.rs:189-309 | In every reachable state each reply that a client has got, or that is on its way or owed to it, tells the truth: logins the client's own id and token, and joins, leaves and chat messages that they succeeded |
| Replies.RepliesTellVoice | server/src/management/handler.rs:214-277 | In every reachable state a user whose entry is in place is in voice if and only if the last answer to a join or leave, of those the client has got and those under way, is to a join |
| Replies.RequestTakesEffect | server/src/management/handler.rs:152-354 | In every reachable state a request finds its user and a valid name; the entry changes at once, and the answer, the event for the relay and the broadcast to the others are left to do, in this order |
| Replies.HangupTakesEffect | server/src/management/handler.rs:357-378 | At the end of a connection the user is removed at once, and everyone is told of the departure, from voice too if the user was in voice, before the relay is |
| Echoes.NobodyIsToldOfThemselves | server/src/management/broadcast.rs:13-31 | In every reachable state nothing on its way to a client tells of its own user's login, joining, leaving, muting or departure |
| Link.BeginAnswers | server/src/management/handler.rs:111-136 | Each client packet is answered by exactly one reply of the expected type |
| Link.ReceiveKeepsFlow | sdk/src/network/tcp_client.rs:202-222 | Receiving keeps waiters and requests under way in step |
| SdkClient.TcpHandler.HandleOutgoing | sdk/src/network/tcp_client.rs:168-190 | The waiter is registered before the bytes are written, and also when writing fails |
| SdkClient.TcpHandler.HandleIncoming | sdk/src/network/tcp_client.rs:193-242 | One read delivers the packets cut from kept and new bytes, keeps the rest and completes their waiters |
| SdkClient.TcpHandler.Complete | sdk/src/network/tcp_client.rs:209-213 | A reply removes and completes the waiter with its id |
| SdkClient.WaitersCompleteOnce | sdk/src/network/tcp_client.rs:209-213 | Replies complete exactly the waiters whose ids they carry, each once and with a reply received, and leave all others waiting |
| SdkClient.CompletionIgnoresChunking | sdk/src/network/tcp_client.rs:202-236 | Which waiters are completed, and with what, does not depend on how the bytes were split |
| SdkClient.ReceivingDelivers | sdk/src/network/tcp_client.rs:209-213 | The connection task does to its waiters what a receive step of the system does |
| SdkClient.RequestIds.Next | sdk/src/network/api_client.rs:28-30 | The id counter counts up and wraps around |
| SdkClient.RequestIds.Take | sdk/src/network/api_client.rs:28-30 | Up to 2^64 ids in a row are all different |
| SdkClient.ExpectedErrorsAreUnreachable | sdk/src/network/api_client.rs:34-151 | Against this server the errors about unexpected login and ping replies cannot occur, and a login returns the id and the token of the client's own connection |
| SdkClient.VoiceAuthenticationSucceeds | sdk/src/network/api_client.rs:61-88 | Nor can those of voice authentication with the token of a live session |
| SdkClient.ListenToPackets | sdk/src/network/event_handler.rs:57-103 | The application is told about exactly the meaningful packets, in order, each by an event of its kind with its fields |
| SdkClient.ShowEvents | desktop/src/view/room.rs:684-742 | A page that follows these events shows the participants list that the packets behind them make |
| SdkClient.ReceiveBytes | sdk/src/network/tcp_client.rs:193-242 | One read, all the way from bytes to the events and the participants list |
| PacketCapacity.LoginResponseFits | protocol/src/packet.rs:175-192 | A login response is encodable if and only if 12 bytes per user plus the names are at most 65509 |
| PacketCapacity.ManyUsersFit | protocol/src/packet.rs:175-192 | 1488 users with valid names always fit |
| PacketCapacity.LimitIsExact | protocol/src/packet.rs:248-253 | With the longest names 1488 is the exact limit |
| PacketCapacity.MessageCapacity | server/src/management/handler.rs:304-309 | A chat message that decodes can be broadcast again if and only if it is at most 65517 bytes long |
| PacketCapacity.OversizedMessageArrives | server/src/management/handler.rs:280-309 | Longer messages, up to 65525 bytes, do decode |
| PacketCapacity.ReachableNames | server/src/management/handler.rs:157-186 | In every reachable state stored names are 1 to 32 bytes long, and listings of up to 1488 users fit a login response |
| PacketCapacity.WhatOverflows | protocol/src/packet.rs:248-253 | In every reachable state the next packet of a handler does not fit if and only if it is a login response with more than 1488 users whose entries and names exceed 65509 bytes, or a chat message of more than 65517 bytes |
| WireTheorems.BytesCarryPackets | protocol/src/packet.rs:139-365 | In every reachable state the packets under way are encodable, and their bytes, split in any way, are reassembled to exactly these packets |
| ServerHandler.ManagementServer.RegisterNewUser | server/src/management/server.rs:73-87 | A new user gets the next id, no name and no flags; the counter wraps around |
| ServerHandler.ManagementServer.Accept | server/src/management/server.rs:46-61 | A connection is registered and reported to the relay before its handler starts |
| ServerHandler.UserHandler.CollectParticipants | server/src/management/handler.rs:177-186 | The snapshot lists each logged-in user once, as the user's entry says |
| ServerHandler.UserHandler.HandleLoginRequest | server/src/management/handler.rs:152-211 | Login carries out its work list, with every way it can end: the name is stored, the answer lists the logged-in users with the user's own id and token, the others are told; a name that is not 1 to 32 bytes long is answered with zeros and changes nothing |
| ServerHandler.UserHandler.HandleJoinVoiceChannelRequest | server/src/management/handler.rs:214-244 | Joining puts the user in voice, not muted, answers success, and then tells the relay and the others; a failed answer skips both |
| ServerHandler.UserHandler.HandleLeaveVoiceChannelRequest | server/src/management/handler.rs:247-277 | Leaving takes the user out of voice, not muted, answers success, and then tells the relay and the others |
| ServerHandler.UserHandler.HandleChatMessageRequest | server/src/management/handler.rs:280-319 | A chat message is answered with success, then broadcast to everyone with its author and the time; an oversized one panics after the answer |
| ServerHandler.UserHandler.HandlePingRequest | server/src/management/handler.rs:322-327 | A ping is answered |
| ServerHandler.UserHandler.HandleUserMuteState | server/src/management/handler.rs:330-354 | The sender's own flag changes, and the packet is broadcast with the id it claims |
| ServerHandler.UserHandler.HandlePacket | server/src/management/handler.rs:111-136 | Every packet is handled as its work list says; unexpected ones change nothing |
| ServerHandler.UserHandler.HandleRead | server/src/management/handler.rs:50-78 | One read handles exactly the packets cut from kept and new bytes, in order |
| ServerHandler.EachHandled | server/src/management/handler.rs:53-62 | In order means: one packet after the other, each as it finds users, clock and socket, with an error on one not keeping the next from being handled |
| ServerHandler.UserHandler.OnRead | server/src/management/handler.rs:41-86 | Data is handled; the end of the stream or an error is a disconnection |
| ServerHandler.UserHandler.HandleBroadcastMessage | server/src/management/handler.rs:139-149 | A broadcast is written unless it excludes the handler's own address |
| ServerHandler.UserHandler.HandleDisconnect | server/src/management/handler.rs:357-378 | The user is removed, and everyone is told, about voice too if and only if the user was in voice |
| HandlerRefinement.UninterruptedRequest | server/src/management/handler.rs:111-354 | A request handled by the object without interruption, on a socket that accepts data, is a run of the system with the same users, events, broadcasts and reply bytes; if the object panics, so does the handler |
| HandlerRefinement.UninterruptedDisconnect | server/src/management/handler.rs:357-378 | A disconnection handled by the object, with the event that follows, is a run of the system that ends with the handler gone |
| HandlerRefinement.CarryOut | server/src/management/handler.rs:152-354 | So is carrying out any work list on such a socket, to its end or to a panic |
| HandlerRefinement.ListingDone | server/src/management/handler.rs:177-186 | An uninterrupted listing is a run of visits |
| Packets.IdFromByte | protocol/src/packet_id.rs:12-20 | The type of a wire value, which is the inverse of the type's wire value; all other values are unknown |
| Utf8Proofs.ValidMeansEncoded | protocol/src/io/reader.rs:79-90 | Text is accepted if and only if it encodes some sequence of Unicode scalar values |
| Bytes.ReadBack | protocol/src/io/reader.rs:30-72 | Big-endian reading inverts writing |
| Bytes.WriteBack | protocol/src/io/writer.rs:19-31 | Big-endian writing inverts reading |
| CodecIO.Reader.ReadUInt | protocol/src/io/reader.rs:30-72 | The cursor reads big-endian integers or reports what is missing |
| CodecIO.Reader.ReadString | protocol/src/io/reader.rs:79-90 | The cursor reads length-prefixed text, with both of its errors |
| CodecIO.Reader.ReadParticipant | protocol/src/packet.rs:34-41 | A participant is read field by field |
| CodecIO.Reader.ReadParticipants | protocol/src/packet.rs:263-365 | The loop over participants reads what the recursive specification reads |
| CodecIO.Writer.WriteString | protocol/src/io/writer.rs:40-43 | Text longer than 65535 bytes panics, other text is written with its length |
| CodecIO.Writer.WriteU16At | protocol/src/io/writer.rs:64-67 | The reserved length is overwritten in place |
| CodecIO.EncodePacket | protocol/src/packet.rs:139-255 | Encoding panics if and only if the payload exceeds 65535 bytes, and otherwise writes the specified bytes |
| CodecIO.DecodePacket | protocol/src/packet.rs:263-365 | Decoding returns what the specification returns, error cases included |
| CodecIO.WriteLoginResponse | protocol/src/packet.rs:175-192 | A login response panics only when it cannot fit |
| CodecProofs.RoundTrip | protocol/src/packet.rs:139-365 | Decoding an encoding, whatever follows it, gives the packet and its exact length, for all 19 types |
| WireFormat.DecodedFields | protocol/src/packet.rs:263-365 | Whatever decodes has its type value in the first byte, its length in the next two, and each field of its type at its position, big-endian; a flag is set if its byte is not zero |
| WireFormat.EncodedFields | protocol/src/packet.rs:139-255 | An encoding holds the fields at the same positions and nothing else, with 1 for a flag that is set; a packet can be encoded if and only if its fields take at most 65535 bytes |
| WireFormat.DecodingErrors | protocol/src/packet.rs:263-274 | What the header alone decides: which bytes are too short, of an unknown type, or incomplete, and by how much; only a whole payload is looked into |
| CodecProofs.Normalisation | protocol/src/packet.rs:263-365 | Whatever decodes re-encodes without a panic to at most the bytes consumed and at least 11, and that encoding decodes to the same packet |
| CodecProofs.PrefixFree | protocol/src/packet.rs:139-255 | No encoding is a prefix of another packet's encoding |
| CodecProofs.StrictPrefixWaits | protocol/src/packet.rs:263-274 | A strict prefix of an encoding is never taken for a packet or for garbage |
| CodecProofs.ParsedSize | protocol/src/packet.rs:263-365 | Reading consumes exactly as many bytes as writing the result produces |
| Framing.DecodeExtends | protocol/src/packet.rs:263-274 | Later bytes do not change a decoding that has succeeded or failed for good |
| Framing.GreedyContinues | server/src/management/handler.rs:53-78 | Cutting a longer buffer continues where cutting the shorter one stopped |
| Framing.ChunkingIndependence | server/src/management/handler.rs:50-78 | Packets before the first fatal error come first under every splitting; without one, packets and kept bytes depend only on the stream |
| Framing.StreamRoundTrip | sdk/src/network/tcp_client.rs:202-236 | Any splitting of encodings followed by a partial one delivers exactly these packets and keeps the partial one |
| Framing.StreamInjective | protocol/src/packet.rs:139-255 | Different packet sequences never have the same bytes |
| Recovery.BlocksExactly | server/src/management/handler.rs:69-72 | A buffer with the header of a known type delivers nothing and drops nothing, whatever follows, if and only if the payload has no room for its fields: told from the payload length, the length prefixes that have arrived, and whether texts that are all there are valid |
| Recovery.StuckForever | server/src/management/handler.rs:69-72 | Such a buffer blocks its connection however the later bytes are read |
| Recovery.ShortPingsBlock | protocol/src/packet.rs:263-274 | Pings with 0 or 2 bytes of payload are examples, the second before its frame is complete |
| FrameRoom.CompleteExact | protocol/src/packet.rs:276-365 | For a payload that is all there, no room means exactly that reading its fields runs out of bytes |
| Recovery.ChunkingDecides | server/src/management/handler.rs:73-77 | What is delivered and kept is the same for every splitting of a stream if and only if there is no fatal error, or the bytes behind the first one yield nothing wherever a read may end |
| Recovery.LossDependsOnChunking | server/src/management/handler.rs:73-77 | A packet behind an unknown id is lost if both are read together, and delivered otherwise |
| StreamBlocks.BlocksConserve | sdk/src/voice/input_pipeline.rs:48-52 | Cutting into blocks loses, duplicates and reorders nothing and leaves less than a block |
| StreamBlocks.BlocksUnique | sdk/src/voice/input_pipeline.rs:48-52 | There is only one such way of cutting |
| StreamBlocks.BlocksAppend | sdk/src/voice/input_pipeline.rs:48-52 | Cutting may go on from what was left |
| Capture.Encoder.Encode | sdk/src/voice/encoder.rs:30-61 | Up to 960 samples are padded with silence to 960 and encoded under the next sequence number and timestamp; exactly longer inputs are refused, without effect |
| Capture.InputPipeline.Resample | sdk/src/voice/input_pipeline.rs:40-62 | Every sample is in the blocks of 480 fed to the resampler or in its buffer, and all output goes to the encode buffer |
| Capture.InputPipeline.EncodeAndSend | sdk/src/voice/input_pipeline.rs:65-95 | Every sample of the stream is in the frames encoded or in the buffer; less than a frame stays unless the pipeline stops |
| Capture.InputPipeline.Run | sdk/src/voice/input_pipeline.rs:98-117 | What has been sent depends only on the samples, not on their split into frames. Packets are those of the first frames of 960 samples, the `i`-th with sequence number `i` and the number of samples before it as timestamp, modulo 2^32; the pipeline stops exactly at the first frame that Opus refuses or that finds no taker |
| Capture.PacketsAreNumbered | sdk/src/voice/encoder.rs:50-58 | The `i`-th packet sent decodes to sequence number `i` and as timestamp the number of samples in the frames before it, both modulo 2^32, with what Opus made of the frame, in at most 4019 bytes |
| Capture.SentUpToFailure | sdk/src/voice/input_pipeline.rs:65-95 | Packets are sent for all frames up to the first that Opus refuses or that finds no taker, and for none after it |
| Capture.HeaderAfterRelay | sdk/src/voice/decoder.rs:54-61 | After the wire and the relay the RTP header of the n-th packet has sequence n modulo 2^16 and timestamp 960 n modulo 2^32 |
| Capture.NumbersAreConsecutive | sdk/src/voice/decoder.rs:54-61 | Consecutive packets have consecutive RTP numbers, across wrap-around, as section 5.1 of RFC 3550 intends |
| Playback.OutputStream.FillOutput | desktop/src/audio/output.rs:96-133 | Every position is written; the first samples available come first, the others are left over, silence only fills up when the source is dry, and the source is called no more than needed |
| Playback.FilledIsDetermined | desktop/src/audio/output.rs:96-133 | These conditions determine output, leftover and number of calls |
| Playback.PlaybackConserves | desktop/src/audio/output.rs:96-133 | Over any callbacks, samples written and left over are the old leftover and the samples pulled, in order |
| Playback.NotificationPlayer.Play | desktop/src/audio/notification_player.rs:174-187 | A known sound replaces what was playing: all its samples in order, each scaled by the volume; an unknown one changes nothing |
| Playback.NotificationPlayer.GetAudio | desktop/src/audio/notification_player.rs:190-213 | The next chunk is taken off the front of what is left of the sound, or is silence when nothing is left |
| Playback.PullChunks | desktop/src/audio/notification_player.rs:190-213 | Calls in a row give the results of `PlayerResults`, which `SoundIsPlayedOnce` is about |
| Playback.ChunksAreTheSound | desktop/src/audio/notification_player.rs:190-213 | The chunks are the sound exactly once, in order, then silence |
| Playback.SoundIsPlayedOnce | desktop/src/audio/output.rs:96-133 | One play emits the old leftover, then each sample of the sound once, in order, scaled by the volume, then silence |
| Example.ClientsLogIn | server/src/management/handler.rs:152-211 | A run from the initial state to a client that is logged in and served |
| Example.HandlersPanic | server/src/management/handler.rs:304-309 | A run in which a chat message of 65518 to 65525 bytes makes a handler panic and its user's entry stay behind |
| Example.LoginsGoUnannounced | server/src/management/handler.rs:178-203 | A run of 1489 logins with a 32-byte name, the last of which is never announced, so that the first client's list stays incomplete whatever it still receives |
| Example.UsersLackAddresses | server/src/management/handler.rs:214-235 | A run in which a client that has logged in but not authenticated joins, and is in voice without an address |
| Example.RelayPanics | server/src/voice/server.rs:143-146 | A longer run, to a state in which another client can make the relay panic |
| Example.TwoAddresses | server/src/voice/server.rs:156-169 | A run in which one session authenticates from two addresses, and the index is no longer exact |
| Example.AddressesStay | server/src/voice/server.rs:77-88 | A longer run, in which this user departs and an address still leads to the user |
| Example.TheDepartedSpeak | server/src/voice/server.rs:117-153 | A longer run still, to a state in which a datagram makes the relay send voice data in the name of this user |

## Left out

- Sockets, the tokio runtime, timeouts and logging: delivery, failure and closing are steps or parameters.
- The 5-second timeout of requests (sdk/src/network/tcp_client.rs:245-262): a waiter that has given up still counts as waiting.
- UDP authentication retries and byte statistics (sdk/src/network/udp_client.rs): kept is that a client learns of successful authentications.
- Broadcast lag beyond 1000 messages: excluded by assumption, as lagging handlers skip messages.
- The client's own entry in its participants list, which the desktop client also changes when its own commands succeed.
- Opus, NetEQ, rubato, cpal and hound: the resampler and Opus are arbitrary functions of everything they were given.
- Sample formats, volume arithmetic and level meters: samples are values of any type, volume is an arbitrary function.
- Chat history, views, settings, device lists, the music bot: no unbounded property worth proving.
- How tokens are drawn: they are assumed to differ.
- UserHandler: its methods run without interruption; interleaving is the subject of `System`, and `UninterruptedRequest` connects the two for sockets that accept data.
- Playback.AudioSource: the trait object behind the callback is a source whose n-th result is given; remote voices (NetEQ) and the notification player are both of this kind.
- Recovery from bad frames: there is none, see `BlocksExactly` and `ChunkingDecides`.
