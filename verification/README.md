# An epoll game server, modelled and proved

This project models the hard parts of a single-process MMO server written in C++ and proves what
they are for. There are four parts, and three theorems that join them.

**The game and its connections.** One thread owns all tables: the server's `clients_`,
`connection_descriptors_` and `marked_for_close_`, and the game's online players, bound
connections, pending connections, pending accounts and area-of-interest world. Logging in is a chain
of database callbacks that interleaves with moves, disconnects, repeated requests and other logins
of the same player. `GameModel` gives every handler, callback and connection event as a function on
these tables; the lambdas of the source are a datatype `Continuation` holding what each captured.
`GameServers` holds the classes `GameServer` and `GameService`, which update their fields in place
and call each other re-entrantly (a finishing login disconnects the displaced connection, which comes
back into `OnDisconnected`). `GameServer` sends through real `TcpConnection` objects, one per client,
which encode, queue, flush, read and decode; the model only says what these do. Every method is
proved equal to the model function, and the methods of the event loop are proved to extend a run of
the model (`Running`), so the theorems about reachable states hold of the objects. Those theorems
are, for every run, whatever clients, sockets, epoll, queue and database do:

* *view replication*: the neighbours a client pieces together from its own message log are exactly
  the players its player can see, with their current nickname and position;
* the eight tables agree, and every live login lock has a callback in flight that will settle it;
* a connection belongs to one player for life, is welcomed once, and is never sent more login
  responses than it made login requests; whoever stops waiting for a login and is still connected has
  been answered; a closed connection is never revived by a late callback;
* a login that may go on does go on: every link of the chain does exactly what the database's reply says,
  and good replies with room in the queue end, whatever happens to others meanwhile, with the player in
  the world, on that connection, and the client told whom it sees and its new token;
* a player moves exactly where it asks to go, and whoever sees it is told that position; a heartbeat is
  echoed; a client is taken exactly if there is room;
* whoever plays a player has asked to log in to that player's account; a token-validated login always
  succeeds in taking over, with the live record; and whoever takes over has itself, earlier, presented
  a non-empty token for an account of that player (of the very account displaced, if accounts do not
  share player ids), which the session store then confirmed;
* a message marks its connection exactly if it does not encode, does not fit, or the socket or epoll fails;
  what waits for a socket stays within the limit;
* one turn of the loop marks a client exactly if its socket is broken, and closes only what is marked;
  closing marked connections ends, although each close may mark more; shutting down leaves nothing.

**The area of interest.** `AoiWorld` keeps a set of players per cell and answers 3x3 queries.
`VisiblePlayers` and `MovePlayer` are proved to give the brute-force view and its exact change; the
view is symmetric, moves change nobody else's view except by the mover, and cells give an exact
distance guarantee.

**Frames and sockets.** `Parse` and `EncodeAll` are the reference reading and writing of a byte
stream; they are proved inverse, the incremental `FrameDecoder` is proved to agree with them whatever
the chunking, and `TcpConnection` conserves what it accepts. How much a flush hands over and how it ends are
stated on the socket's answers alone (`FlushExactly`). `EndToEnd` joins the two sides, and
`ReplicationOverTheWire` carries view replication to a client that decodes the bytes its socket was
given.

**The database hand-off.** Worker threads, the bounded pool and the completion queue are a transition
system with one step per lock region and separate steps for each notification. No wake-up is lost,
nothing is delivered twice or dropped, in every interleaving; left to themselves the threads stop
after a bounded number of steps, and then everything accepted has been delivered. `DatabaseHandoff`
runs this system together with the game, the game's requests being the pool's tasks and its queue
deciding which find room: once the threads are at rest no login waits and no account is locked, and
after the destructor every callback has run and every table is empty.

## Where the code and its documentation differ

`docs/server-architecture.md` line 47 says that a player's position is saved to MySQL when it
disconnects. The code ignores the result of `SavePlayer` and its callback is empty, so the save is
lost when the request queue is full, and also when the database fails. `SavedExactlyIf` proves that
the state is stored if and only if the queue has room at that moment and that one request is
answered with Ok, whichever way the connection closes (`ClosedExactlyIf` lists the three ways);
`SaveReplyIsIgnored` that a failure changes nothing, and `EverythingIsTraced` that nothing but the
closing of a player's connection asks for such a save; and `ASaveIsLost` gives a run in which a save is lost.

## Files

| file | content |
|---|---|
| `aoi_grid.dfy`, `aoi_world.dfy` | geometry of the grid; the index |
| `frame_codec.dfy`, `frame_decoder.dfy`, `tcp_connection.dfy` | frames, incremental decoding, output buffer |
| `completion_pipeline.dfy` | thread pool, completion queue, wake-ups |
| `client_connections.dfy` | the connection objects of all clients, in step with the model |
| `game_model.dfy` | every handler and event as a function |
| `replication.dfy`, `view_changes.dfy` | what clients learn from messages; what each change of view tells them |
| `server_invariants.dfy`, `server_steps.dfy`, `login_locks.dfy` | the invariant, and that every event keeps it |
| `server_runs.dfy`, `server_sessions.dfy`, `login_provenance.dfy`, `player_accounts.dfy`, `login_responses.dfy`, `login_answers.dfy`, `lock_changes.dfy`, `login_progress.dfy`, `requests_served.dfy`, `departures.dfy`, `database_requests.dfy`, `disconnect_saves.dfy`, `chat.dfy`, `client_sight.dfy` | theorems over whole runs |
| `database_handoff.dfy` | the game and the thread pool together |
| `event_scripts.dfy`, `game_server.dfy` | one turn of the event loop; the server as objects |

## Model

| member | source | states |
|---|---|---|
| AoiGrid.GridIndexFor | src/game/aoi_world.cpp:104-119 | an index is the row-major number of the cell, within the grid, and is given only on the map |
| AoiGrid.GridIndexExact | src/game/aoi_world.cpp:104-119 | an index is given exactly on the half-open rectangle: the guard on column and row never fires there |
| AoiGrid.CellsTileTheMap | src/game/aoi_world.cpp:16-19 | columns and rows of cells fill the map exactly |
| AoiGrid.PositionInItsCell | src/game/aoi_world.cpp:111-114 | a position lies, measured in cells from the corner of the map, between its column and the next and its row and the next |
| AoiGrid.GeometricGuarantee | src/game/aoi_world.cpp:16-19 | players within one cell width and height see each other; players who see each other are less than two apart |
| AoiGrid.VisibleSymmetric | src/game/aoi_world.cpp:84-94 | seeing is mutual |
| AoiGrid.MoveViews | src/game/aoi_world.cpp:48-82 | a move changes another player's view only by gaining or losing the mover, exactly for entered and left |
| AoiGrid.ArrivalViews | src/game/aoi_world.cpp:23-35 | an arrival changes exactly the views of those whom the newcomer sees |
| AoiGrid.DepartureViews | src/game/aoi_world.cpp:37-46 | a departure takes the player out of exactly the views of those whom it saw |
| AoiGrid.Ascending | include/mmo/game/aoi_world.h:26-30 | iterating an ordered set visits every element once, in increasing order |
| AoiGrid.CentreInMap | src/game/game_service.cpp:472-479 | the starting position of a new player is on the map |
| AoiWorldIndex.AoiWorld.constructor | src/game/aoi_world.cpp:9-21 | an empty world with consistent cells |
| AoiWorldIndex.AoiWorld.Create | src/game/aoi_world.cpp:9-14 | a world exactly for valid settings |
| AoiWorldIndex.AoiWorld.AddPlayer | src/game/aoi_world.cpp:23-35 | adds exactly a new player on the map, and otherwise changes nothing |
| AoiWorldIndex.AoiWorld.RemovePlayer | src/game/aoi_world.cpp:37-46 | removes exactly a known player, and otherwise changes nothing |
| AoiWorldIndex.AoiWorld.MovePlayer | src/game/aoi_world.cpp:48-82 | the delta is the exact three-way difference of the brute-force views; a rejected move changes nothing |
| AoiWorldIndex.AoiWorld.VisiblePlayers | src/game/aoi_world.cpp:84-94 | the nine-cell query returns exactly the brute-force view |
| AoiWorldIndex.AoiWorld.VisiblePlayersAt | src/game/aoi_world.cpp:121-132 | exactly the players whose row and column differ by at most one |
| AoiWorldIndex.AoiWorld.NeighborGridIndices | src/game/aoi_world.cpp:134-159 | lists exactly the adjacent cells that exist, without wrapping around a row |
| FrameFormat.ReadAfterWrite | src/protocol/frame_codec.cpp:10-24 | reading a written 32-bit number gives it back, wherever it stands |
| FrameFormat.WriteAfterRead | src/protocol/frame_codec.cpp:10-24 | writing a number that was read gives its four bytes back |
| FrameFormat.AppendNetworkUint32 | src/protocol/frame_codec.cpp:17-24 | appends the four big-endian bytes |
| FrameFormat.EncodeFrame | src/protocol/frame_codec.cpp:45-64 | encodes exactly the legal frames |
| FrameFormat.KnownMeansTyped | src/protocol/frame_codec.cpp:28-43 | the known ids are those of the ten message types, which share none |
| FrameFormat.Layout | src/protocol/frame_codec.cpp:45-64 | length, then message id, most significant byte first, then the payload |
| FrameFormat.ParseGrows | src/protocol/frame_codec.cpp:87-122 | more bytes never take back a frame |
| FrameFormat.ParseEncoded | src/protocol/frame_codec.cpp:87-122 | decoding any encoded legal frames followed by any bytes gives these frames, then what the bytes hold |
| FrameFormat.EncodeParsed | src/protocol/frame_codec.cpp:87-122 | any stream is the encoding of its frames followed by the unread rest, and these frames are legal |
| FrameFormat.ParsePrefix | src/protocol/frame_codec.cpp:87-122 | a cut-off stream of legal frames decodes to a prefix of them and never fails |
| FrameFormat.FailureIsSticky | src/protocol/frame_codec.cpp:87-106 | once a stream has failed, after whatever frames, more bytes change neither the frames nor the failure |
| FrameDecoding.FrameDecoder.constructor | src/protocol/frame_codec.cpp:66-71 | an empty reader with a positive limit |
| FrameDecoding.FrameDecoder.ChunkIndependence | src/protocol/frame_codec.cpp:73-122 | frames handed out, then those in the unread bytes, are the frames of all bytes received, with the same failure |
| FrameDecoding.FrameDecoder.CompactionIsAmortised | src/protocol/frame_codec.cpp:149-162 | bytes shifted never exceed bytes consumed; dead space stays below 4096 or below the live bytes |
| FrameDecoding.FrameDecoder.Append | src/protocol/frame_codec.cpp:73-81 | extends the stream by the chunk, and nothing else |
| FrameDecoding.FrameDecoder.Next | src/protocol/frame_codec.cpp:87-122 | hands out the next frame of the stream, or waits only when no whole frame is there, or fails for good |
| FrameDecoding.FrameDecoder.Compact | src/protocol/frame_codec.cpp:149-162 | never changes the unread bytes |
| FrameDecoding.FrameDecoder.Reset | src/protocol/frame_codec.cpp:124-129 | starts a new stream |
| FrameDecoding.FrameDecoder.BufferedBytes | src/protocol/frame_codec.cpp:131-133 | the number of unread bytes |
| TcpConnections.TcpConnection.constructor | src/net/tcp_connection.cpp:12-20 | nothing accepted, nothing pending |
| TcpConnections.TcpConnection.QueueBytes | src/net/tcp_connection.cpp:65-75 | accepts exactly what fits beside the pending bytes; a refusal changes nothing |
| TcpConnections.TcpConnection.Flush | src/net/tcp_connection.cpp:77-99 | hands over the front of what is pending, as much as the sends before the one that ends the flush add up to; an error exactly if a send of nothing or a failing one comes while bytes are pending |
| TcpConnections.FlushExactly | src/net/tcp_connection.cpp:77-99 | after interrupts and partial sends, a would-block leaves the connection open with what they add up to handed over, at most what is pending; a send of nothing or an error before that fails |
| TcpConnections.FlushFailsExactlyIf | src/net/tcp_connection.cpp:77-99 | a flush fails in no other case |
| TcpConnections.TcpConnection.CompactOutput | src/net/tcp_connection.cpp:109-121 | never changes the pending bytes |
| TcpConnections.TcpConnection.PendingBytes | src/net/tcp_connection.cpp:105-107 | the number of bytes accepted but not handed over |
| TcpConnections.TcpConnection.Receive | src/net/tcp_connection.cpp:30-48 | everything that arrived reaches the decoder |
| TcpConnections.TcpConnection.Decode | src/net/tcp_connection.cpp:50-61 | every whole frame is handed out, and the decoder fails exactly when the stream does |
| TcpConnections.TcpConnection.ReadAvailable | src/net/tcp_connection.cpp:26-63 | the frames and the status are those of the reference reading of everything received so far |
| TcpConnections.IncomingExactly | src/net/tcp_connection.cpp:30-48 | all bytes up to the result that ends the reading, which decides between open, closed by the peer and error |
| TcpConnections.ReadExactly | src/net/tcp_connection.cpp:26-63 | the frames read are those the stream has gained; a failed stream is a protocol error, an error hands out nothing |
| TcpConnections.StaysFrameAligned | src/net/tcp_connection.cpp:65-75 | accepted output stays a sequence of whole frames |
| TcpConnections.QueueFrame | src/server/game_server.cpp:96-105 | a frame is queued whole exactly if it encodes and fits |
| TcpConnections.Transmit | src/server/game_server.cpp:96-112 | a message is refused exactly if it does not encode or does not fit, and the socket never takes more than is pending |
| TcpConnections.TransmitExactly | src/server/game_server.cpp:96-112 | a message is queued, refused, or fails in flush or interest, exactly by whether it encodes, fits, what the socket answers and what epoll answers |
| TcpConnections.SendFrame | src/server/game_server.cpp:96-112 | encoding, queueing, flushing and the interest update come out as `Transmit` says, and the output stays whole messages |
| TcpConnections.EndToEnd | src/net/tcp_connection.cpp:26-99 | the peer never fails, decodes a prefix of the messages the connection accepted, and all of them once everything arrived |
| CompletionPipeline.StepKeepsInv | src/concurrency/bounded_thread_pool.cpp:32-98 | every step of every thread keeps conservation, order, bounds and both wake-up promises |
| CompletionPipeline.StepOwnerNotices | src/concurrency/completion_queue.cpp:10-42 | a non-empty completion queue has a positive counter, a pusher about to notify, or an owner in the middle of a drain |
| CompletionPipeline.StepWorkerNotices | src/concurrency/bounded_thread_pool.cpp:32-64 | a non-empty task queue has somebody awake or a signal still owed |
| CompletionPipeline.StepConserves | src/data/async_data_service.cpp:17-47 | an accepted task is in exactly one place, a refused one nowhere |
| CompletionPipeline.SleepingMeansDelivered | src/data/async_data_service.cpp:17-115 | when everybody sleeps, each accepted call has had its callback exactly once and no other has |
| CompletionPipeline.NeverStuck | src/concurrency/bounded_thread_pool.cpp:76-98 | while anything is left to do, some thread can take a step |
| CompletionPipeline.InternalStepsUseUpWork | src/concurrency/bounded_thread_pool.cpp:76-98 | every step that a thread takes by itself uses up a finite amount of work |
| CompletionPipeline.EverythingIsDelivered | src/concurrency/completion_queue.cpp:10-42 | left to themselves the threads stop after a bounded number of steps, with every accepted task delivered exactly once |
| CompletionPipeline.ShutdownIsQuiescent | src/server/game_server.cpp:57-61 | after shutdown and the last drain nothing accepted is left behind |
| CompletionPipeline.SingleWorkerIsFifo | src/concurrency/bounded_thread_pool.cpp:76-98 | with one worker callbacks run in submission order |
| DatabaseHandoff.MoveKeepsInv | src/server/game_server.cpp:24-29 | however threads, events and callbacks interleave, the requests in flight in the game are exactly the accepted tasks whose callbacks have not run |
| DatabaseHandoff.PoppedIsAwaited | src/data/async_data_service.cpp:23-30 | every callback that the owner thread pops is one that the game waits for, and has not run before |
| DatabaseHandoff.NobodyWaitsAtRest | src/server/game_server.cpp:40-44 | once the threads are at rest, no login waits, no account is locked and no callback is outstanding |
| DatabaseHandoff.ShutdownLeavesNothing | src/server/game_server.cpp:49-66 | after the destructor, in every interleaving, every callback has run and every table is empty |
| CompletionPipeline.BoundedThreadPool.TrySubmit | src/concurrency/bounded_thread_pool.cpp:32-46 | queues exactly while accepting and below capacity |
| CompletionPipeline.BoundedThreadPool.TakeTask | src/concurrency/bounded_thread_pool.cpp:79-89 | takes the oldest task, waits, or leaves exactly when closed and empty |
| CompletionPipeline.BoundedThreadPool.StopAccepting | src/concurrency/bounded_thread_pool.cpp:48-55 | closes the pool and keeps what is queued |
| CompletionPipeline.CompletionQueue.Push | src/concurrency/completion_queue.cpp:10-24 | appends, and notifies exactly on empty to non-empty |
| CompletionPipeline.CompletionQueue.Drain | src/concurrency/completion_queue.cpp:26-42 | runs the oldest completions in order, up to the maximum |
| Replication.InboxOfBroadcast | src/game/game_service.cpp:336-344 | a broadcast reaches each addressed player once and nobody else |
| Replication.InboxOfExchange | src/game/game_service.cpp:341-377 | in an exchange each addressed player hears of the mover once |
| ViewChanges.DepartureIsLearnt | src/game/game_service.cpp:409-425 | the leave messages turn every client's old view into its new one |
| ViewChanges.ArrivalIsLearnt | src/game/game_service.cpp:268-278 | the enter messages turn every client's old view into its new one |
| ViewChanges.NewcomerLearns | src/game/game_service.cpp:254-266 | the login response alone gives the newcomer its whole view |
| ViewChanges.MoveIsLearnt | src/game/game_service.cpp:327-377 | after a move every other client knows its new view, positions included |
| ViewChanges.MoverLearns | src/game/game_service.cpp:341-377 | after its move the mover knows its new view |
| ServerInvariants.SendEachDelivers | src/server/game_server.cpp:83-113 | a live connection not marked afterwards has been queued its whole inbox: a failed send marks |
| ServerInvariants.SendEachKeeps | src/server/game_server.cpp:83-113 | sending changes no table but by marking live connections |
| ServerSteps.CloseKeeps | src/server/game_server.cpp:271-283 | closing keeps tables, replication and welcomes consistent |
| ServerSteps.FinishLoginKeeps | src/game/game_service.cpp:217-279 | so does finishing a login, through the re-entrant disconnect |
| ServerSteps.HandleMoveKeeps | src/game/game_service.cpp:307-378 | so does a move |
| ServerSteps.DeliverKeeps | src/game/game_service.cpp:81-252 | so does every database callback, stale or not |
| ServerSteps.StepKeeps | src/server/game_server.cpp:172-290 | so does every event |
| LoginLocks.DeliverSettles | src/game/game_service.cpp:81-252 | after a callback every remaining lock still has a callback in flight, on every exit |
| LoginLocks.HandleLoginSettles | src/game/game_service.cpp:59-135 | so after a login request, refused or accepted |
| LoginLocks.StepSettles | src/game/game_service.cpp:59-252 | so after every event |
| ServerRuns.ViewReplication | src/game/game_service.cpp:254-278 | what a client knows is exactly what its player sees, in every reachable state |
| ServerRuns.MutualSight | src/game/game_service.cpp:341-377 | of two clients, either both know of each other or neither does |
| ServerRuns.TablesAgree | include/mmo/game/game_service.h:90-97 | all tables of the game and the server agree, only live connections are marked, and the number of clients is bounded |
| ServerRuns.NoLeakedLocks | src/game/game_service.cpp:436-447 | every pending connection and account has its callback in flight; with none left, both tables are empty |
| ServerRuns.BoundForLife | src/game/game_service.cpp:247-252 | a bound connection is never rebound or made pending, and is welcomed at most once |
| ServerRuns.ClosedForLife | src/server/game_server.cpp:195-195 | a closed connection stays closed, unbound and silent whatever callbacks come |
| ServerRuns.CloseShrinks | src/server/game_server.cpp:271-283 | a close removes exactly one live connection |
| ServerSessions.ReplacementIsTotal | src/game/game_service.cpp:230-252 | a validated login takes over, with the displaced live record, and cannot fail |
| ServerSessions.OnlyFinishedLoginsBind | src/game/game_service.cpp:217-252 | only the last callback of the chain of a live, unmarked, waiting connection binds it, and displaces only if the chain allows it |
| LoginProvenance.StepStarts | src/game/game_service.cpp:76-215 | a callback is put in flight only by the event that its place in the login chain requires, or by the closing of the player whose state it saves |
| LoginProvenance.EverythingIsTraced | src/game/game_service.cpp:76-215 | in every run, every callback in flight goes back, link by link, to a login request of its connection, or to the closing of a connection |
| LoginProvenance.DisplacedOnlyByToken | src/game/game_service.cpp:156-172 | whoever displaced a player had asked for an account with a non-empty token, the record then loaded for it was that player's, and the store then confirmed that token |
| LoginProvenance.EveryBindingIsEarned | src/game/game_service.cpp:91-129 | in every run, whoever plays a player has asked for its account, and its record was loaded or made for that account |
| PlayerAccounts.OnlineRecordsAreOwned | src/game/game_service.cpp:247-249 | in every run, whoever is online plays with a record that was loaded or made for its account |
| PlayerAccounts.TokenNamesTheAccount | src/game/game_service.cpp:230-238 | if accounts do not share player ids, the token that displaced a player was confirmed for that player's own account |
| Departures.ClosedExactlyIf | src/server/game_server.cpp:271-283 | a live connection is closed by exactly three kinds of event: a close, a frame no client may send, a login that takes over |
| Departures.LeavingAsksToSave | src/game/game_service.cpp:409-427 | each of them hands the player's last state, and nothing else, to the database if and only if the queue has room |
| DatabaseRequests.StepAsksOnce | src/data/async_data_service.cpp:17-47 | every event takes out of flight only the request it answers, and makes at most one new one |
| DisconnectSaves.FateOfSave | src/game/game_service.cpp:427-427 | a request to save stays in flight until answered, is answered once, and its record is stored exactly if the answer is Ok |
| DisconnectSaves.SaveReplyIsIgnored | src/game/game_service.cpp:427-427 | whatever the answer, nothing else changes |
| DisconnectSaves.SavedExactlyIf | src/game/game_service.cpp:391-430 | in every run, whichever event closes the connection, the last state is stored if and only if the queue had room and that request is answered with Ok |
| DisconnectSaves.ASaveIsLost | src/game/game_service.cpp:427-427 | a run in which the queue is full and the state is lost |
| LoginResponses.ResponsesAnswerRequests | src/game/game_service.cpp:436-457 | login responses sent, with those callbacks may still cause, never exceed the login requests made |
| LoginResponses.StartedOrRefused | src/game/game_service.cpp:59-135 | a request starts a login, with its account locked and a load in flight, exactly under the stated guards; otherwise it is refused and the connection waits for nothing |
| LoginAnswers.NobodyIsLeftWaiting | src/game/game_service.cpp:436-457 | in every run, an event after which a connected client no longer waits for its login has sent it exactly one login response |
| LoginAnswers.StepAnswers | src/game/game_service.cpp:59-279 | so for every event on every exit of the login chain |
| LockChanges.LocksChangeOnlyForTheActor | src/game/game_service.cpp:391-457 | in every run, an event changes the pending login of no connection but the one in whose name it happens, and no other account than that login's and its own |
| LockChanges.ClosingUnlocks | src/game/game_service.cpp:391-399 | a connection that closes frees its account at once |
| LoginProgress.LinkReacts | src/game/game_service.cpp:81-252 | in every run, a callback whose login has not been given up hands on to the next link exactly if its reply is good and the queue has room, refuses with its reason, or lets the player in: a confirmed token leads on whether or not the player is online |
| LoginProgress.GivenUpIsDropped | src/game/game_service.cpp:81-252 | in every run, a callback whose login was given up frees the account, starts nothing and lets nobody in |
| LoginProgress.WaitsThrough | src/game/game_service.cpp:76-79 | a login waits, its callback in flight, through anything that happens to others |
| LoginProgress.ReconnectSucceeds | src/game/game_service.cpp:137-215 | a login with a token, a record, a confirmed session, a stored one and room in the queue ends with the player in the world on this connection, online before or not |
| LoginProgress.LoginSucceeds | src/game/game_service.cpp:59-252 | so does a login without a token, of a player who is not online |
| LoginProgress.FirstLoginSucceeds | src/game/game_service.cpp:104-132 | so does the first login to an account, whose player is made, in the middle of the map |
| RequestsServed.LoginIsTakenUp | src/game/game_service.cpp:59-135 | a login request without objection locks its account and asks for the record under the next ticket; any other is answered with the objection |
| RequestsServed.MoveGoesWhereAsked | src/game/game_service.cpp:307-331 | in every run, a bound player who asks for a position on the map is moved there, in world and record, and nothing else changes; any other move request changes nothing |
| RequestsServed.MoveIsTold | src/game/game_service.cpp:333-377 | whoever saw the player and still does is told the new position, whoever sees it now is shown it there, whoever no longer does is told that it left, and no other player is told anything |
| RequestsServed.HeartbeatIsEchoed | src/game/game_service.cpp:380-389 | a heartbeat that parses is sent back to its sender, and nothing else happens |
| RequestsServed.ChatIsHeard | src/game/game_service.cpp:281-305 | a chat frame reaches every connection that plays, as `ChatReachesEveryone` says, and changes no table of the game |
| RequestsServed.MarkedIsNotHeard | src/server/game_server.cpp:233-238 | a connection that is marked is not listened to |
| RequestsServed.AcceptedIfRoom | src/server/game_server.cpp:186-211 | a client is taken, under the next id, exactly if there is room and epoll registers it; otherwise no table is changed |
| RequestsServed.NewPlayerStandsInTheMiddle | src/game/game_service.cpp:459-480 | a new player stands as far from either edge of the map |
| RequestsServed.SendMarksExactly | src/server/game_server.cpp:83-113 | a message marks its live connection exactly if it does not go out, and nobody else |
| RequestsServed.SendLogsExactly | src/server/game_server.cpp:96-105 | a message is queued exactly if it encodes and fits, and to nobody else |
| RequestsServed.MarksOnlyTheAddressed | src/server/game_server.cpp:83-113 | sending many messages marks nobody but those they are addressed to |
| Chat.ChatReachesEveryone | src/game/game_service.cpp:281-305 | valid chat reaches every online player once, under the sender's name, in any order; invalid chat reaches nobody |
| ClientSight.ReplicationOverTheWire | src/net/tcp_connection.cpp:65-99 | view replication for a client that decodes the bytes its socket was given, however they were cut up |
| ClientSight.OutputIsBounded | src/net/tcp_connection.cpp:65-75 | in every run only messages that encode are queued, and what waits for a socket is within the limit |
| ClientConnectionTables.Transmit | src/server/game_server.cpp:95-112 | one message on a connection object comes out as the model says, and leaves the object in step |
| ClientConnectionTables.FlushPending | src/server/game_server.cpp:246-249 | so does a later flush |
| ClientConnectionTables.ClientConnections.Open | src/server/game_server.cpp:196-203 | a new connection shares nothing with the others and starts in step |
| ClientConnectionTables.ClientConnections.Send | src/server/game_server.cpp:95-112 | sending on one connection keeps all of them in step |
| ClientConnectionTables.ClientConnections.Flush | src/server/game_server.cpp:246-249 | flushing one keeps all of them in step |
| ClientConnectionTables.ClientConnections.ReadAvailable | src/server/game_server.cpp:223-232 | reading one gives the frames and status of the reference reading, and keeps all of them in step |
| EventScripts.CloseProgress | src/server/game_server.cpp:285-290 | each round closes a live connection and forgets no other mark |
| EventScripts.NothingToClose | src/server/game_server.cpp:285-290 | with nothing marked nothing is closed |
| EventScripts.OnlyMarkedAreClosed | src/server/game_server.cpp:285-290 | a live connection that is never marked on the way stays |
| EventScripts.CallbacksAfterTheLastClose | src/server/game_server.cpp:57-61 | callbacks that run after all connections are gone start nothing, send nothing and let nobody in |
| EventScripts.NothingLeft | src/server/game_server.cpp:57-61 | without connections and requests every table is empty |
| EventScripts.FrameRewiresNothing | src/server/game_server.cpp:233-245 | handling a frame may close connections but moves none to another descriptor |
| GameServers.GameServer.constructor | src/server/game_server.cpp:19-29 | starts in the model's empty state, with all connection objects in step |
| GameServers.GameServer.Send | src/server/game_server.cpp:83-113 | encoding, queueing and flushing on the client's connection object, and marking, come out as the model's `Send`; true exactly if the message was queued |
| GameServers.GameServer.CloseConnection | src/server/game_server.cpp:271-283 | does what the model does, through the call into the game |
| GameServers.GameServer.Disconnect | src/server/game_server.cpp:120-122 | the same, as seen by the game |
| GameServers.GameServer.CloseMarkedConnections | src/server/game_server.cpp:285-290 | terminates with nothing marked, having closed every marked connection and only connections marked at the moment; with nothing marked, nothing happens |
| GameServers.GameServer.AcceptReady | src/server/game_server.cpp:172-213 | a run of the accept events, in order, with a new connection object for each client taken; nothing marked |
| GameServers.GameServer.HandleFrames | src/server/game_server.cpp:233-238 | hands over frames in order, each while the connection is neither closed nor marked, and chat to everybody online; stops early only if it is closed or marked |
| GameServers.GameServer.Read | src/server/game_server.cpp:223-232 | the frames decoded by the connection object are the reference reading of what arrived; nothing is left undecoded unless reading failed |
| GameServers.GameServer.Flush | src/server/game_server.cpp:246-249 | flushing the connection object comes out as the model's `Flush` |
| GameServers.GameServer.ClientReady | src/server/game_server.cpp:215-259 | hands over a prefix of the frames that the reference reading gives; a connection still alive then is flushed if epoll asks, and marked exactly if it hung up, shut down, failed in reading or flushing, or epoll refuses it; then only what is marked is closed, and nothing stays marked or undecoded |
| GameServers.GameServer.Settle | src/server/game_server.cpp:241-259 | a live connection is flushed if epoll asks and marked exactly if its socket is broken, the flush or the interest update fails; what is marked, and nothing else, is closed |
| GameServers.GameServer.DatabaseReady | src/server/game_server.cpp:40-44 | runs the callbacks in order, then closes what they marked and nothing else |
| GameServers.GameServer.CloseAll | src/server/game_server.cpp:49-59 | leaves no connection, no player and no pending login |
| GameServers.GameServer.FinishCallbacks | src/server/game_server.cpp:60-61 | leaves no locked account and nothing in flight |
| GameServers.GameService.HandleFrame | src/game/game_service.cpp:36-57 | dispatches to the transition of the request; anything else closes the connection |
| GameServers.GameService.HandleLogin | src/game/game_service.cpp:59-135 | the tables, the sockets and the requests in flight move as `StartedOrRefused` and `HandleLoginSettles` require |
| GameServers.GameService.OnPlayerLoaded | src/game/game_service.cpp:83-132 | gives a stale login up, goes on, creates the player, or refuses: the transition that `DeliverSettles` shows to leak no lock |
| GameServers.GameService.OnPlayerCreated | src/game/game_service.cpp:112-129 | goes on as a new player, or refuses and unlocks |
| GameServers.GameService.ContinueLogin | src/game/game_service.cpp:137-175 | gives up, asks for the session, or stores a new one; a full queue refuses and unlocks |
| GameServers.GameService.OnSessionLoaded | src/game/game_service.cpp:159-172 | only the very token presented gives the right to replace, and it does: the transition that `LinkReacts` and `ReconnectSucceeds` are about |
| GameServers.GameService.StoreSessionAndFinish | src/game/game_service.cpp:177-215 | gives up, refuses a player already online without that right, or asks for the session to be stored |
| GameServers.GameService.OnSessionStored | src/game/game_service.cpp:197-212 | finishes the login, or refuses and unlocks |
| GameServers.GameService.FinishLogin | src/game/game_service.cpp:217-279 | the whole transition from old to new state, with the re-entrant disconnect in the middle, on which `ReplacementIsTotal` and `FinishLoginKeeps` rest |
| GameServers.GameService.FailLogin | src/game/game_service.cpp:436-457 | unlocks the account and the connection, and refuses only a live connection |
| GameServers.GameService.HandleChat | src/game/game_service.cpp:281-305 | sends to a walk that visits every online player exactly once, as `ChatReachesEveryone` needs |
| GameServers.GameService.HandleMove | src/game/game_service.cpp:307-378 | moves index and record together to where the player asks to go, and sends the messages that `MoveIsTold`, `MoveIsLearnt` and `MoverLearns` are about |
| GameServers.GameService.HandleHeartbeat | src/game/game_service.cpp:380-389 | echoes a heartbeat that parses, as `HeartbeatIsEchoed` asks |
| GameServers.GameService.OnDisconnected | src/game/game_service.cpp:391-430 | cancels the pending login, or takes the player out of all tables, tells exactly those who saw it and asks for a save |
| GameServers.GameService.NewPlayer | src/game/game_service.cpp:459-480 | a player of the account asked for, in the middle of the map |

## Left out

- Sockets, epoll, eventfd and threads themselves: `send` and `recv` are scripts of results, epoll's reports and answers are parameters, the eventfd is a counter, threads are interleaved steps. `EventLoop`, `UniqueFd` and `EventFdWakeup` only wrap system calls.
- Connection objects are kept by connection id beside `clients_`, and the object of a closed connection stays in that map unused instead of being destroyed.
- What a socket takes and what epoll answers after the n-th message offered are parameters (`Environment.sends`, `Environment.interest`).
- Protobuf encoding: messages are a datatype; a request that does not parse is `None`; the payload codec is a parameter, and only `ClientSight.ReplicationOverTheWire` assumes that it gives back the messages that were queued to the client.
- MySQL, Redis and the in-memory stores: a reply may be anything of the right kind, except that a loaded record is assumed to be that of the account asked for.
- Request queue and game: in `GameModel` a submit is one step that the queue takes or refuses (`Environment.accepts`), and a reply may come for any request in flight, in any order; `DatabaseHandoff` puts the pool's queue and the owner's drain in their place. The six operations of `AsyncDataService` share that one shape; its checks for null callbacks are left out.
- Exceptions: constructors that throw on bad configuration are preconditions or `Create`; tasks, callbacks and repositories are assumed to return. A message too large to encode is the outcome `Refused`.
- Floating point: positions are exact reals, without rounding, infinities or NaN; the guard at src/game/aoi_world.cpp:115-117 then never fires.
- Machine widths: connection ids, player ids and sizes do not wrap around; 32-bit frame headers are modelled exactly.
- Strings: an account or text is a sequence of characters, and its length counts characters where the code counts bytes.
- Clock and random values: `last_login_unix`, new player ids, nicknames and tokens are parameters of the callback that draws them, and need not be fresh.
- Session time-to-live and what the session store holds: a stored session need not outlive, or match, the online player's token.
- The account lock is not claimed to admit one login at a time: a stale callback unlocks an account that another connection has since locked. What the code keeps, and what is proved, is uniqueness per player and per connection.
- GameServers.GameServer.FinishCallbacks: that the batch answers every request in flight is a precondition of the object's method; `DatabaseHandoff.ShutdownLeavesNothing` proves for the joint system that the pool and the last drain achieve it.
- CompletionPipeline.SleepingMeansDelivered: tasks are numbers, without the operation they perform or its result; `DatabaseHandoff.NobodyWaitsAtRest` is the same for the game's own requests.
- CompletionPipeline.CompletionQueue.Drain: as an object it is modelled between two pushes and records the callbacks it runs; the transition system has pushes and callbacks interleaved with the drain.
- GameServers.GameService.NewPlayer: the player's id and nickname are parameters.
- What the database holds is only seen through its answers: `Stores` means that a save was answered with Ok.
- `OpenListener`, command-line programs, the blocking client, the benchmark tool and the tests.
