# ThreadLink, verified

ThreadLink is a chat system in three tiers: a thread-per-client C++ server that owns nicknames and fan-out, a
TypeScript gateway that bridges each browser's WebSocket to its own TCP connection and keeps accounts, conversations
and history, and a browser client whose state is a reducer. This project models the state machines of the three tiers
and the seams between them, and proves what each keeps over every run.

`dafny verify dfyconfig.toml` checks everything. Read the modules in this order.

**Framing.** `WireProtocol` defines one functional parser of length-prefixed streams. `FrameDecoder` is the gateway's
incremental decoder, an object whose buffer is rewritten by a loop; `SocketIo` has the C++ loops over partial sends and
receives. Both are proved against the one parser.

**Lines.** `Text` and `BackendLines` hold the line vocabulary with its printers and parsers on both sides, and say
exactly which texts survive the trip and which relays fit a frame.

**Server.** `ClientTable` is the `clients_` map: the values, and a class whose methods are the lock scopes.
`ServerMachine` is the whole server as a step relation: every lock scope, every mutex acquisition, every partial send
and every join is one step of one thread. A connection is named by a generation and not by its descriptor number, since
a broadcast snapshot can outlive a close. `ServerLocks`, `ServerRecords` and `ServerWire` are the parts of the
invariant, `ServerInvariant` proves that every step keeps it, `ServerTheorems` and `ServerProgress` draw the
conclusions, `ServerShutdown` shows that shutting down waits for no peer, and `ServerRelay` and `ServerDelivery` say who
is sent what and that it gets there once. `ServerRefinement` ties the loops, the table's methods and the machine together.

**Store.** `Database` models the tables as values, `Stores` the objects that share one database handle.

**Browser.** `ChatState` is the reducer, with the READY branch as the loops it is; `ChatStateProofs` proves what it keeps
and how snapshot and increments relate. `Reconnect` is the WebSocket client.

**Gateway.** `Gateway` states what each event does to sessions, roster, database and every browser's stream.
`Sessions` and `GatewayServer` are the objects and their handlers, with their loops, each proved to do what `Gateway`
states. `GatewayFrames`, `GatewayStores` and `GatewayInvariant` hold for every run; `GatewayRoster` and
`GatewayReplication` follow every browser's user list; `GatewayTheorems` and `GatewayGroups` have the results.
`GatewayLimits` shows three kinds of runs that leave a browser with a wrong user list.

**Seams.** `ServerTheorems.StreamsDecode` runs the gateway's decoder on the server's bytes;
`GatewayTheorems.LoginRestoresEverything` and `GatewayTheorems.RosterIsReplicated` run the browser's reducer on the
gateway's messages; `NicknameTracking` runs the gateway's rename rule on the server's NICK frames; `GatewayMessages`
follows one text from browser to browser.

Three claims fail in some runs of the code, and for each the model has such runs and the exact condition.
The invariant of the roster and its replicas holds in every state of a run if and only if the run is *orderly*: a login
that would be let in finds its socket neither closed nor in the roster already, and a socket that closes does not take
another session's roster entry with it (gateway/src/gatewayServer.ts:76-91, 179-213). Nickname tracking holds if and only if every NICK frame is *clear* for its
receiver when it is sent; the code releases `clients_mtx_` before it broadcasts (src/Server.cpp:298-319), so frames can
overtake each other, and never reusing a name that is still being announced away would be enough. A direct conversation
id names its two users if their ids have no ':' in them, as the UUIDs the code draws do not.

docs/GATEWAY_PROTOCOL.md sections 1 and 7 say that there are no accounts and no persistence; the code has both, and the
model follows the code.

## Model

| member | source | states |
|---|---|---|
| `WireProtocol.HeaderRoundTrip` | gateway/src/wireProtocol.ts:51-56 | a four-byte big-endian header decodes to the length that was encoded, whatever follows it |
| `WireProtocol.ParseUnique` | gateway/src/wireProtocol.ts:26-47 | the functional parse is the only way to cut a byte stream into fitting frames and a stuck remainder: the one specification that both decoders refine |
| `WireProtocol.ParseContinues` | gateway/src/wireProtocol.ts:26-47 | parsing what is left over together with new bytes continues the same parse, so where a stream is cut does not matter |
| `WireProtocol.TooLargeIsSticky` | gateway/src/wireProtocol.ts:33-36 | once an oversized header is at the front no later bytes bring a frame or clear the error |
| `WireProtocol.ResidueBound` | gateway/src/wireProtocol.ts:31-47 | without an error fewer than 4 + max bytes are left over |
| `WireProtocol.ChunkedRoundTrip` | gateway/src/wireProtocol.ts:26-56 | for every list of fitting payloads and every split of their encoding into chunks the decoder's outputs concatenate to exactly the payloads, with no error and nothing left |
| `WireProtocol.TornStreamDecodes` | gateway/src/wireProtocol.ts:26-47 | a stream torn inside its last frame yields the whole frames before it, in any chunks, and no error |
| `FrameDecoding.FrameDecoder.Push` | gateway/src/wireProtocol.ts:26-47 | one push returns the frames that are now complete; everything emitted so far is the parse of everything received so far, and too_large is its verdict |
| `FrameDecoding.FrameDecoder.Drain` | gateway/src/wireProtocol.ts:31-47 | the reassembly loop refines the functional parse of the buffer |
| `FrameDecoding.DecodeStream` | gateway/src/wireProtocol.ts:20-48 | any list of chunks decodes to the parse of their concatenation |
| `SocketIo.SendAll` | src/Protocol.cpp:10-24 | over partial sends, retries and errors: Ok exactly when every byte went out, otherwise a proper prefix did |
| `SocketIo.RecvExact` | src/Protocol.cpp:26-40 | Ok exactly when the buffer was filled; the bytes taken off the stream are those at its front, in order; end of stream means nothing unread |
| `SocketIo.SendFrame` | src/Protocol.cpp:42-51 | TooLarge exactly for an oversized payload, which writes nothing; Ok appends one whole frame; an error leaves a proper prefix of it |
| `SocketIo.RecvFrame` | src/Protocol.cpp:53-65 | Ok takes exactly the first frame off the stream; TooLarge exactly when its header is oversized, with only the header consumed |
| `SocketIo.RecvFrames` | src/Protocol.cpp:53-65 | repeated recv_frame reads the frames of the same functional parse as FrameDecoder and reaches the same too-large verdict; an I/O error can only cut the list short |
| `Text.DecimalRoundTrip` | src/Server.cpp:370 | std::to_string of a count reads back as the count |
| `BackendLines.HandleLine` | src/Server.cpp:238-261 | the trimming loop and the dispatch of handle_line |
| `BackendLines.PublicFidelity` | src/Server.cpp:238-273 | public text goes through the gateway's formatter, handle_line, the MSG printer and parseBackendLine unchanged if and only if it is non-empty, does not start with '/' and does not end in CR or LF |
| `BackendLines.PrivateFidelity` | src/Server.cpp:322-356 | the same for a private text: recipient and sender decode the same text under the right names if and only if it is non-empty and does not end in CR or LF |
| `BackendLines.NickFidelity` | src/Server.cpp:275-293 | a nickname without white space reaches handle_nick's check as it is, and passes it if and only if it is valid |
| `BackendLines.AcceptedNicknameIsValid` | src/Server.cpp:275-293 | whatever the arguments of /nick, only a valid nickname gets as far as the client table |
| `BackendLines.NickParses` | gateway/src/backendMessages.ts:45-48 | a NICK line with a space-free old name is read back as the two names |
| `BackendLines.ListParses` | gateway/src/backendMessages.ts:49-54 | a LIST reply is read back as exactly its names, in order, and their number |
| `BackendLines.RelayFits` | src/Server.cpp:263-271 | every sender's MSG relay of a line fits a frame if and only if the line is at most max - 29 bytes |
| `BackendLines.PrivateRelaySizes` | src/Server.cpp:354-356 | when the PRIV and PRIV_SENT relays of an accepted /msg command fit a frame, exactly |
| `ClientTable.UsedNamesBound` | src/Server.cpp:383-391 | if User1 to User(n-1) are taken there are at least n-1 clients, which is why the naming loop ends |
| `ClientTable.DefaultNameIsValid` | src/Server.cpp:383-391 | while a place is free the default name has at most five digits and is a valid nickname |
| `ClientTable.Server.AssignDefaultNickname` | src/Server.cpp:383-391 | the do-while loop ends and returns the first default name nobody has |
| `ClientTable.Server.Admit` | src/Server.cpp:149-158 | the accept scope: full exactly at capacity, else one new record under a free valid name; distinctness and capacity are kept |
| `ClientTable.Server.Rename` | src/Server.cpp:295-311 | the rename scope: refused exactly when another client has the name, else exactly this record changes; names stay distinct and valid |
| `ClientTable.Server.Leave` | src/Server.cpp:222-230 | the erase scope: exactly this record goes, and its name is returned |
| `ClientTable.Server.FindTarget` | src/Server.cpp:331-343 | finds the welcomed client of that name if there is one, and nobody who is not welcomed |
| `ClientTable.Server.Snapshot` | src/Server.cpp:410-417 | the broadcast snapshot lists each welcomed client but the excluded one once |
| `ClientTable.Server.ListNames` | src/Server.cpp:359-368 | the welcomed clients' nicknames, sorted, each once |
| `ServerInvariant.InvStep` | src/Server.cpp:133-470 | every step of every thread, at the granularity of lock scopes and partial sends, keeps the invariant of control, locks, records, threads and streams |
| `ServerTheorems.NicknamesAlwaysUnique` | src/Server.cpp:149-158 | in every reachable state nicknames in clients_ are valid and pairwise distinct and the count is within max_clients |
| `ServerTheorems.RecordsHaveOneOwner` | src/Server.cpp:222-230 | a connection has a record exactly while its one handler is before its erase or main is admitting it, never both |
| `ServerTheorems.StreamsDecode` | src/Server.cpp:393-422 | in every interleaving of threads and partial writes FrameDecoder, under any chunking of a connection's bytes, yields exactly the payloads the server finished writing there, in write-mutex order, and no error |
| `ServerTheorems.IdleLinkHasWholeFrames` | src/Server.cpp:393-422 | while nobody holds its write mutex a working connection carries whole frames only |
| `ServerTheorems.StreamsOnlyGrow` | src/Protocol.cpp:10-51 | no step takes bytes or frames back, and after a send error nothing more is written on that connection |
| `ServerTheorems.WelcomeFirst` | src/Server.cpp:171-181 | in every interleaving the first frame decoded on a connection that was let in is its WELCOME with a valid nickname, and on one that was turned away it is SERVER_FULL |
| `ServerTheorems.GreetingIsFirst` | src/Server.cpp:160-176 | the first payload of a connection is the greeting chosen when it was admitted or refused |
| `ServerTheorems.NobodyOvertakesTheGreeting` | src/Server.cpp:409-422 | until the greeting is out no thread holds any other send for that connection, and the client is not welcomed, so no broadcast or private message aims at it |
| `ServerTheorems.ThreadsAreConserved` | src/Server.cpp:183-186 | every handler ever spawned is registered, waiting in shutdown_all's list, or joined: exactly one of these, exactly once |
| `ServerTheorems.ReapJoinsOnlyTheDead` | src/Server.cpp:424-439 | the reap loop joins only handlers that are past their erase |
| `ServerTheorems.ShutdownLeavesNothing` | src/Server.cpp:441-469 | when run() returns the table is empty, no thread is registered and every handler has finished and was joined |
| `ServerProgress.NoDeadlock` | src/Server.cpp:393-464 | from every running thread in every reachable state the chain of waits, for a mutex or a join, ends after at most two hops at a thread that can step |
| `ServerProgress.ThreadsMutexIsFree` | src/Server.cpp:424-464 | main is the only thread that takes threads_mtx_ and never waits for it |
| `ServerProgress.WriterCanStep` | src/Server.cpp:393-422 | whoever holds a write mutex is inside send_frame and can go on: write mutexes are leaf locks |
| `ServerShutdown.ReceiversAreReleased` | src/Server.cpp:441-464 | in every reachable state with main past the socket shutdowns and about to take or join the threads, every handler in recv sits on a socket that was shut down, so its recv returns without the peer |
| `ServerShutdown.JoinsNeedNoPeer` | src/Server.cpp:424-464 | main never joins a handler that its peer could keep in recv: the reap loop joins handlers past their last recv, shutdown_all handlers whose socket is shut down |
| `ServerShutdown.WaitsNeedNoPeer` | src/Server.cpp:393-464 | a thread that waits for another one, for a mutex or a join, waits in the end for a thread that can step and is not in a recv that only its peer could end |
| `ServerRelay.ChatIsBroadcast` | src/Server.cpp:263-272 | a surviving chat line becomes one broadcast, to everyone but its sender, of a payload that the other gateway sessions decode as that text of that sender |
| `ServerRelay.BroadcastReachesOnce` | src/Server.cpp:409-422 | a broadcast writes exactly once to each welcomed client but the excluded one and to nobody else |
| `ServerRelay.PrivateLineIsRead` | src/Server.cpp:322-329 | a /msg line of the gateway leads the handler to look for exactly its target with exactly its text |
| `ServerRelay.PrivateIsDelivered` | src/Server.cpp:331-356 | the handler finds the one welcomed client of that name and sends it PRIV and itself PRIV_SENT; or, exactly when there is none or it is the sender, one error to the sender |
| `ServerRelay.PrivateEvents` | src/Server.cpp:354-356 | these two relays decode to what PrivateDelivery promises to the peer and to the sender |
| `ServerRelay.RenameIsAnnounced` | src/Server.cpp:295-319 | either exactly this record is renamed and a NICK line that reads back as old and new name goes to everyone, or, exactly when another client has the name, nothing changes and the asker gets one error |
| `ServerRelay.ListIsAnswered` | src/Server.cpp:359-373 | the LIST reply goes to the asker alone and is read back as the sorted names of exactly the welcomed clients |
| `ServerDelivery.ScopeStep` | src/Server.cpp:238-373 | over every run a handler's lock scope meets a table with valid, distinct names and leaves exactly the table and the sends that the scope function states |
| `ServerDelivery.BroadcastArrives` | src/Server.cpp:409-422 | over every run and interleaving, when a broadcast is through, its payload has been written exactly once on each connection that was welcomed and not excluded at its snapshot, unless that connection is broken or the payload too large, and on no other |
| `ServerDelivery.SendArrives` | src/Server.cpp:393-403 | over every run a send to one client is written on its connection exactly once, unless the client has left, the connection is broken or the payload too large, and on no other |
| `ServerDelivery.ChatArrives` | src/Server.cpp:263-272 | over every run a chat line goes from its sender's lock scope onto every connection welcomed at the snapshot but the sender's, once, as the line that decodes to that text of that sender |
| `ServerDelivery.PrivateArrives` | src/Server.cpp:331-356 | over every run the scope of /msg picks the one welcomed client of that name, and the PRIV line is written on its connection once and by that send on no other |
| `ServerDelivery.RenameArrives` | src/Server.cpp:295-319 | over every run a rename to a name that nobody else has changes exactly that record, and its NICK line, which reads back as old and new name, is written once on every connection welcomed at the snapshot |
| `ServerRefinement.SendFrameRefines` | src/Protocol.cpp:42-51 | one call of send_frame over partial sends is a sequence of the machine's system calls on a link: the same bytes, and done, broken or too large exactly as its status says |
| `ServerRefinement.ScriptWorks` | src/Protocol.cpp:10-51 | every number of bytes that send_frame can put out is reached by the machine, and a frame is done exactly when all of its bytes are out |
| `ServerRefinement.RenameRefines` | src/Server.cpp:295-319 | the rename scope as a method on the shared table is the machine's scope: the same table, the same sends |
| `ServerRefinement.LeaveRefines` | src/Server.cpp:222-234 | the erase scope as a method is the machine's scope |
| `ServerRefinement.FindTargetRefines` | src/Server.cpp:331-356 | the search of handle_msg as a method makes a choice the machine allows, with the same sends |
| `ServerRefinement.AdmitRefines` | src/Server.cpp:149-176 | the accept scope as a method is the machine's admission: the same table, the same greeting |
| `Database.DirectIdSymmetric` | gateway/src/conversationManager.ts:14-17 | the id of a direct conversation does not depend on the order of its two users |
| `Database.DirectIdNamesThePair` | gateway/src/conversationManager.ts:14-17 | on ids without ':' two direct conversations have one id if and only if they are between the same two users |
| `Database.DirectIdCollision` | gateway/src/conversationManager.ts:14-17 | with ':' in an id two different pairs share a conversation id |
| `Database.EnsureDirectOk` | gateway/src/conversationManager.ts:55-66 | ensureDirect keeps the tables well formed, changes no existing conversation, and leaves exactly the pair as members, whether it inserted or found the row |
| `Database.InsertGroupOk` | gateway/src/conversationManager.ts:73-81 | createGroup keeps the tables well formed and gives the new group exactly the listed members |
| `Database.AppendOk` | gateway/src/messageStore.ts:30-39 | append keeps the tables well formed and only adds |
| `Database.RenameKeepsNamesUnique` | gateway/src/users.ts:84-92 | a rename takes effect exactly for a valid name that nobody else has, touches no other account, and keeps usernames unique |
| `Database.HistoryIsFilter` | gateway/src/messageStore.ts:45-58 | in a well-formed database ordering by time changes nothing: the history is the visible messages in the order they were stored |
| `Database.HistoryIsListed` | gateway/src/messageStore.ts:45-58 | each message of a user's history is public or belongs to a conversation that conversationsFor lists |
| `Database.HistoriesOnlyGrow` | gateway/src/messageStore.ts:45-58 | a later history of the same user continues the earlier one |
| `Database.VisibilityIsFrozen` | gateway/src/messageStore.ts:30-58 | who can see a stored message is settled when it is stored, its sender included |
| `Stores.ConversationManager.EnsureDirect` | gateway/src/conversationManager.ts:55-66 | the method inserts exactly the conversation and the two member rows unless they exist, idempotently |
| `Stores.ConversationManager.CreateGroup` | gateway/src/conversationManager.ts:73-81 | the insertion loop adds exactly the rows of the group's members |
| `Stores.ConversationManager.GetGroup` | gateway/src/conversationManager.ts:83-93 | finds exactly the group rows, with exactly the stored members |
| `Stores.ConversationManager.ConversationsFor` | gateway/src/conversationManager.ts:95-119 | the join of member rows and conversations, row by row |
| `Stores.MessageStore.Append` | gateway/src/messageStore.ts:30-39 | one row is added, and nothing else changes |
| `Stores.MessageStore.HistoryForUser` | gateway/src/messageStore.ts:45-58 | the messages the user may see, and no others |
| `Stores.UserStore.FindByUsername` | gateway/src/users.ts:30-35 | finds a row of that name exactly when there is one |
| `Stores.UserStore.Rename` | gateway/src/users.ts:84-92 | refused for an invalid or taken name, else exactly that row changes |
| `ChatState.HandleReady` | frontend/context/chatState.ts:124-153 | the three loops of the READY branch compute the folds that the reducer's specification states |
| `ChatStateProofs.StateOkKept` | frontend/context/chatState.ts:119-302 | every action keeps keys equal to ids and an active conversation that exists with nothing unread |
| `ChatStateProofs.RosterOkKept` | frontend/context/chatState.ts:155-211 | the public conversation's members stay equal to the known users under every action, a conversationCreated that names the public conversation excepted: for it, if and only if it lists exactly those users |
| `ChatStateProofs.SelfOkKept` | frontend/context/chatState.ts:155-190 | every action but READY keeps the user's own name and presence equal to its entry in the user list |
| `ChatStateProofs.UnreadCountsArrivals` | frontend/context/chatState.ts:213-269 | after every trace of actions each unread counter is the number of messages that arrived since the conversation was last active or the state last reset |
| `ChatStateProofs.AnnouncementAndMessageCommute` | frontend/context/chatState.ts:192-236 | an announcement and a message of one conversation commute to equal states if and only if the announcement is not that of the group this user has just asked for |
| `ChatStateProofs.SnapshotEqualsReplay` | frontend/context/chatState.ts:124-236 | READY with a history equals READY without it followed by the messages one by one, up to unread counters, if and only if every message's conversation is listed |
| `ChatStateProofs.ReadyShowsTheHistory` | frontend/context/chatState.ts:124-153 | after READY exactly the listed conversations exist and each holds exactly its own messages in history order |
| `GatewayFrames.PresentableIsActionOk` | frontend/context/ChatProvider.tsx:70-103 | what the reducer needs of its input is exactly what the gateway invariant keeps of everything it sends |
| `GatewayInvariant.RunOkStep` | gateway/src/gatewayServer.ts:60-512 | every event in every order keeps the database well formed, session fields consistent, sent messages presentable and queues accounted for; the database only evolves |
| `GatewayInvariant.AnnounceReadyDrains` | gateway/src/gatewayServer.ts:475-482 | becoming ready starts exactly the queued messages, once each, in order, and changes no other session but for what it is sent |
| `GatewayInvariant.ReplayStartsEach` | gateway/src/gatewayServer.ts:479-481 | the drain loop starts each queued message once |
| `GatewayRoster.BroadcastReaches` | gateway/src/gatewayServer.ts:506-512 | a broadcast reaches each live welcomed session but the excluded one once, and nobody else |
| `GatewayRoster.SnapshotAgrees` | gateway/src/sessionManager.ts:34-38 | the user list of ready is exactly the roster of welcomed sessions |
| `GatewayRoster.ReducerAgrees` | frontend/context/chatState.ts:155-190 | the reducer's user list depends on nothing but the user list and the message |
| `GatewayReplication.AnnounceSynced` | gateway/src/gatewayServer.ts:475-482 | the snapshot to the newcomer and the userUpdate to everyone else bring every browser's view back into agreement with the roster |
| `GatewayReplication.ClosedSynced` | gateway/src/gatewayServer.ts:76-91 | a disconnect that takes no other session's place with it takes exactly one entry out of the roster and of every view |
| `GatewayReplication.BackendRefusedSynced` | gateway/src/gatewayServer.ts:202-213 | a failed backend connect leaves the roster before anybody has heard of the session |
| `GatewayReplication.OrderlyStep` | gateway/src/gatewayServer.ts:60-512 | every orderly event keeps roster and views in agreement; orderly is what two guards can test: a login that would be let in finds its socket neither closed nor in the roster, and a closing socket's entry is its own or that of a session nobody has heard of |
| `GatewayReplication.OrderlyExactly` | gateway/src/gatewayServer.ts:76-214 | from a good state an event keeps the whole invariant if and only if it is orderly |
| `GatewayReplication.DisorderlyBreaks` | gateway/src/gatewayServer.ts:76-214 | any other event breaks the roster at once: an entry leads to a wrong session, or a session that can be heard of has none |
| `GatewayTheorems.RosterIsReplicated` | gateway/src/gatewayServer.ts:475-512 | over every orderly run: once a browser that was sent ready has reduced what is in flight, every entry of its users is the current card of a welcomed session and every announced session is listed, whatever it showed before and whatever its user did |
| `GatewayTheorems.OrderlyRunsExactly` | gateway/src/gatewayServer.ts:60-512 | a run is orderly if and only if every state of it has the whole invariant |
| `GatewayTheorems.PublicMembersAreTheUsers` | frontend/context/chatState.ts:124-211 | over every run of the gateway, whatever a browser has received of its stream and whatever its user did, its public conversation lists exactly the users it knows and the reducer's invariant holds |
| `GatewayTheorems.ViewsConverge` | gateway/src/gatewayServer.ts:373-397 | when no login is half done, all browsers that have caught up show the same users |
| `GatewayTheorems.OneSessionPerAccount` | gateway/src/gatewayServer.ts:179-192 | in an orderly run at most one session of an account can be heard of |
| `GatewayTheorems.QueuedMessagesRunOnce` | gateway/src/session.ts:34-62 | over every run what was queued is what was replayed followed by what still waits; nothing is started before ready, nothing waits after it |
| `GatewayTheorems.LoginRestoresEverything` | gateway/src/gatewayServer.ts:484-499 | over every run, reducing ready restores the whole history: no message is skipped, exactly the user's conversations appear, each with exactly its stored messages in stored order |
| `GatewayTheorems.VisibilityIsFrozen` | gateway/src/gatewayServer.ts:254-353 | over every run histories never lose messages and who sees a stored message is fixed when it is stored, its sender included |
| `GatewayTheorems.DirectMembersAreThePair` | gateway/src/conversationManager.ts:55-66 | over every run a direct conversation's stored members are exactly the pair its id encodes |
| `GatewayGroups.FanOut` | gateway/src/gatewayServer.ts:349-352 | whatever the roster looks like, a fan-out over ids writes to each session once for each id that leads to it |
| `GatewayGroups.GroupDelivery` | gateway/src/gatewayServer.ts:326-353 | over every run a member's group message is stored and written to each session once for each member id that leads to it; in an orderly run that is each live session of a stored member once and no other; a non-member's is refused and stores nothing |
| `GatewayGroups.GroupCreation` | gateway/src/gatewayServer.ts:254-272 | over every run a group is created if and only if the creator and every named user are welcomed, with exactly them as members; each session hears of it once for each of their ids that leads to it, in an orderly run exactly their live sessions once |
| `GatewayTheorems.ReadyShowsSelfOnline` | frontend/context/chatState.ts:141-146 | over every run a session that asks for its state sees itself as the snapshot shows it if and only if its card there has its name and is not away; in an orderly run a ready session's card is its own |
| `GatewayMessages.PublicTextEndToEnd` | gateway/src/gatewayServer.ts:274-292 | a surviving public text is stored once, echoed to its sender only and sent on as one line; what the server relays of it reaches another browser as the same text of the same sender in the same conversation |
| `GatewayMessages.PrivateTextEndToEnd` | gateway/src/gatewayServer.ts:294-324 | a surviving private text is stored once in the pair's conversation, and the server's two relays reach the peer's and the sender's browser as the same text of the same sender in the same conversation that was stored |
| `GatewayMessages.DirectSaid` | gateway/src/gatewayServer.ts:305-323 | who hears what at once: a new conversation is announced to its two sides and to nobody else, one row is stored, one /msg line under the peer's name goes out |
| `GatewayMessages.FoundByName` | gateway/src/sessionManager.ts:23-28 | while names differ a welcomed live session is found under its name |
| `GatewayMessages.BrowserShowsText` | frontend/context/chatState.ts:213-236 | a delivered text becomes the last line of its conversation and of no other, under the sender's name, own exactly for its sender |
| `GatewayLimits.GhostAfterCloseDuringLogin` | gateway/src/gatewayServer.ts:150-192 | for every two accounts there is a run in which a socket closes during its key derivation and a browser that was sent ready ends up listing a user who is not welcomed, whatever it showed before |
| `GatewayLimits.LostAfterFailedConnect` | gateway/src/gatewayServer.ts:202-213 | for every account there is a run in which the late close after a failed backend connect removes the roster entry of a later login, whose own browser goes on listing it while the roster does not |
| `GatewayLimits.TwoNamesAfterTwoLogins` | gateway/src/gatewayServer.ts:150-192 | for every two accounts there is a run in which two logins in flight on one socket leave an announced id that a ready browser does not list |
| `GatewayServer.GatewayServer.SendTo` | gateway/src/gatewayServer.ts:501-504 | writes to the session's socket if it is open, and changes nothing else |
| `GatewayServer.GatewayServer.BroadcastToAll` | gateway/src/gatewayServer.ts:506-512 | the loop over the roster equals the broadcast function |
| `GatewayServer.GatewayServer.HandleCreateGroup` | gateway/src/gatewayServer.ts:254-272 | the new state is that of the group-creation function, in the refused case too |
| `GatewayServer.GatewayServer.NotWelcomed` | gateway/src/gatewayServer.ts:255-256 | the filter returns exactly the ids without a welcomed session |
| `GatewayServer.GatewayServer.SendPublic` | gateway/src/gatewayServer.ts:274-292 | stores the text once, echoes it and sends it on |
| `GatewayServer.GatewayServer.SendDirect` | gateway/src/gatewayServer.ts:294-324 | error, or the pair's conversation, announced to both if new, the stored text and the /msg line |
| `GatewayServer.GatewayServer.SendGroup` | gateway/src/gatewayServer.ts:326-353 | refusal, or the stored text and its fan-out |
| `GatewayServer.GatewayServer.SetPresence` | gateway/src/gatewayServer.ts:234-237 | the presence and the news of it |
| `GatewayServer.GatewayServer.SendReady` | gateway/src/gatewayServer.ts:484-499 | the snapshot of roster, conversations and history |
| `GatewayServer.GatewayServer.HandleClientMessage` | gateway/src/gatewayServer.ts:229-252 | the dispatch over requests |
| `GatewayServer.GatewayServer.AnnounceReady` | gateway/src/gatewayServer.ts:475-482 | snapshot, news, then the drain loop, in this order |
| `GatewayServer.GatewayServer.OnWelcome` | gateway/src/gatewayServer.ts:359-372 | either claims the account's name or announces |
| `GatewayServer.GatewayServer.OnNick` | gateway/src/gatewayServer.ts:373-398 | renames exactly the session whose name it is; announces or broadcasts and persists |
| `GatewayServer.GatewayServer.OnMsg` | gateway/src/gatewayServer.ts:399-411 | relays with the sender's id if the name is known |
| `GatewayServer.GatewayServer.OnPriv` | gateway/src/gatewayServer.ts:412-426 | relays inside the pair's conversation |
| `GatewayServer.GatewayServer.OnPrivSent` | gateway/src/gatewayServer.ts:427-441 | the sender's copy inside the same conversation |
| `GatewayServer.GatewayServer.OnErr` | gateway/src/gatewayServer.ts:442-456 | a taken name before ready ends the login, any other error is passed on |
| `GatewayServer.GatewayServer.OnConnection` | gateway/src/gatewayServer.ts:62-74 | a new session, in no roster |
| `GatewayServer.GatewayServer.OnClientClosed` | gateway/src/gatewayServer.ts:76-91 | leaves the roster and the database as stated, tells the others if it was welcomed |
| `GatewayServer.GatewayServer.OnBackendClosed` | gateway/src/gatewayServer.ts:93-104 | tells the browser and closes its socket |
| `GatewayServer.GatewayServer.OnClientMessage` | gateway/src/gatewayServer.ts:141-145 | queues before WELCOME, handles after |
| `GatewayServer.GatewayServer.HandleLogout` | gateway/src/gatewayServer.ts:216-227 | loggedOut, then the socket is closed |
| `GatewayServer.GatewayServer.RequestAuth` | gateway/src/gatewayServer.ts:150-157 | up to the key derivation |
| `GatewayServer.GatewayServer.FinishAuth` | gateway/src/gatewayServer.ts:159-196 | refusal, account held elsewhere, or the session joins the roster |
| `GatewayServer.GatewayServer.BackendRefused` | gateway/src/gatewayServer.ts:202-213 | the failed connect, with its removal from the roster |
| `Sessions.SessionManager.FindByNickname` | gateway/src/sessionManager.ts:23-28 | the loop finds the first welcomed session of that name in roster order |
| `Sessions.SessionManager.WelcomedUsers` | gateway/src/sessionManager.ts:34-38 | filter and map over the roster in order |
| `Sessions.SessionManager.Add` | gateway/src/sessionManager.ts:7-9 | keeps an existing key's position, appends a new one |
| `Sessions.SessionManager.Remove` | gateway/src/sessionManager.ts:11-13 | removes exactly that key |
| `Sessions.Session.QueueUntilReady` | gateway/src/session.ts:54-56 | appends to the queue |
| `Sessions.Session.DrainQueue` | gateway/src/session.ts:58-62 | hands over the whole queue in order and empties it |
| `NicknameTracking.TrackingExactly` | gateway/src/gatewayServer.ts:359-397 | over every run of commits, snapshots and sends, every session is on track in every state if and only if every NICK frame is clear for its receiver when it is sent: it gives up another name than the receiver was last told for itself, or changes nothing |
| `NicknameTracking.EnqueueTracksExactly` | src/Server.cpp:418-421 | one send of a NICK frame keeps all sessions on track if and only if it is clear; the receiver's own rename always is |
| `NicknameTracking.ConsumedFrameExactly` | gateway/src/gatewayServer.ts:374-381 | in any run a session that believed in its own name goes on doing so after a NICK frame if and only if the frame is its own, gives up another name, or changes nothing |
| `NicknameTracking.SessionsFollowTheServer` | gateway/src/gatewayServer.ts:359-397 | over every clear run each session's nickname is its server nickname as of the frames it has consumed, and the current one once it has caught up |
| `NicknameTracking.RenamerIsIdentified` | gateway/src/gatewayServer.ts:374-379 | in a clear run oldNick === session.nickname holds for exactly the renamed session, but for a rename that changes nothing |
| `NicknameTracking.CaughtUpSessionsDiffer` | src/Server.cpp:295-311 | in a clear run two live sessions that have caught up never believe in one name |
| `NicknameTracking.VacantNamesSuffice` | src/Server.cpp:149-158 | if a rename or a default name takes a name only once no handler is still announcing that it gives it up, which the lock scopes can test, the run is clear |
| `NicknameTracking.ReversedFramesMislead` | src/Server.cpp:295-319 | for every valid third name there is a run in which two clients rename, the NICK frames reach one session in the other order, and it ends up, with nothing left to consume, under the other client's name |
| `NicknameTracking.GatewayFollows` | gateway/src/gatewayServer.ts:357-397 | the following rule is what the gateway's event handler does to the nickname, in every state of every run |
| `ServerRefinement.CommitIsTheScope` | src/Server.cpp:295-319 | a commit of the tracking model is the machine's rename scope: the same table, and an announcement exactly when the scope leaves the NICK broadcast |
| `ServerRefinement.SnapshotIsTheScope` | src/Server.cpp:409-417 | its snapshot is the machine's: one write for each target |
| `ServerRefinement.AcceptIsTheScope` | src/Server.cpp:149-176 | a newcomer's record and WELCOME are those of the machine's admission |
| `Reconnect.ThreadLinkClient.Connect` | frontend/lib/websocket-client.ts:47-90 | the new state, whether or not the WebSocket constructor throws |
| `Reconnect.ThreadLinkClient.Disconnect` | frontend/lib/websocket-client.ts:92-97 | no socket, no timer, disconnected, intentional |
| `Reconnect.ThreadLinkClient.OnClose` | frontend/lib/websocket-client.ts:78-89 | schedules a retry while some remain, else failed or disconnected |
| `Reconnect.ThreadLinkClient.ScheduleReconnect` | frontend/lib/websocket-client.ts:148-153 | one more attempt, with its delay |
| `Reconnect.ThreadLinkClient.CloseSocket` | frontend/lib/websocket-client.ts:162-176 | drops the socket; the status changes only as asked and never from failed |
| `Reconnect.TracesKeepLinkOk` | frontend/lib/websocket-client.ts:47-97 | in every trace a pending timer means no socket and status reconnecting, attempts never exceed the maximum, and connected means the socket is open |
| `Reconnect.CloseHandlerIsNeverIntentional` | frontend/lib/websocket-client.ts:80-83 | the close handler's intentional branch is never taken, since disconnect detaches the handler |
| `Reconnect.FailuresEndInFailed` | frontend/lib/websocket-client.ts:78-89 | a run of asynchronous failures without open or user call makes at most the remaining retries; when it can go no further it made exactly those, waited exactly their backoff, and the status is failed (disconnected if there never was a retry) |
| `Reconnect.ThrowingConstructorStopsRetries` | frontend/lib/websocket-client.ts:53-59 | a timer whose WebSocket constructor throws ends the retries, and only then |
| `Reconnect.BackoffTotal` | frontend/lib/websocket-client.ts:148-153 | n backoffs from zero total 1000(2^n - 1) ms for n up to 4 and 15000 + 10000(n - 4) ms after |
| `Reconnect.DefaultBackoff` | frontend/lib/websocket-client.ts:44 | from a fresh page with five retries an unreachable server means five retries and 25 seconds of waiting |

## Left out

- GatewayTheorems.RosterIsReplicated: holds for orderly runs; `GatewayReplication.OrderlyExactly` says event by event that nothing weaker does, and `GatewayLimits` has a misled browser for each kind of other run.
- GatewayReplication.OrderlyExactly: exact for the invariant of roster and views, not for the views of the browsers that happen to be watching.
- NicknameTracking.SessionsFollowTheServer: holds for clear runs; `TrackingExactly` says that it holds for no others.
- NicknameTracking.VacantNamesSuffice: one way; a name may be taken early in runs whose frames happen to be clear all the same.
- GatewayTheorems.QueuedMessagesRunOnce: says nothing of global arrival order, because messages that arrive between WELCOME and ready are handled at once while earlier queued ones still wait.
- ServerTheorems.StreamsDecode: the decoder's limit must be at least the server's max_message_size; with a lower one the gateway closes the connection.
- GatewayMessages.PublicTextEndToEnd: the relay is taken in a later state in which the sender still has its name and session names differ, as `NicknameTracking.CaughtUpSessionsDiffer` gives once sessions have caught up.
- GatewayMessages.PrivateTextEndToEnd: likewise.
- Recycled descriptor numbers: a broadcast snapshot that outlives a close can write to a later connection with the same number; connections are generations here, so this is not captured.
- Character widths: `ServerMachine.Bytes` takes each character modulo 256, so the levels of lines and of bytes meet for single-byte characters only, while the source sends UTF-8.
- A simulation of every step of `ServerMachine` by `NicknameTracking`: `ServerRefinement` ties their scopes, snapshots and admissions, not whole runs.
- Socket setup, select, signals, standard input and errno detail: send and recv are nondeterministic partial progress, retry, close or error.
- Fairness: progress means that some thread can step, not that every thread eventually does.
- Password hashing, account lookup and its error texts: an authentication ends with an account or a refusal chosen by the environment.
- SQL text, WAL and file handling: tables are maps and sequences of rows with the primary keys kept; timestamps are a counter that never falls, UUIDs a supply that never repeats.
- JSON parsing, field validation and the byte limit on client messages: a message that fails them is one event that answers with an error.
- Rejected promises: a line sent on a closed backend connection is dropped here, while the source rejects a promise that nobody awaits.
- Backend traffic in `Gateway` is restricted to one WELCOME, first or not at all, which `ServerTheorems.WelcomeFirst` proves of the server for the first frame.
- Configuration, logging, and the `list` and `unknown` lines the gateway ignores: they change no state.
- parseInt of a LIST count: the count is kept as its digits.
- std::sort in handle_list is an insertion into a sorted list; only its result is of interest.
- React components, hooks, localStorage and the status callbacks of the WebSocket client.
- A WebSocket's CLOSING state in `Reconnect`, and `send`: they change no field of the client.
- UTF-8 and locales: payloads are sequences of code units, of which space, '/', CR and LF are told apart.
- Record keys such as `__proto__` in the reducer's plain objects.
