/** The server as a state machine over values: what each handler, continuation and connection
    event does to the tables of `GameServer` and `GameService`.  The classes of
    game_server.dfy are proved to do exactly this; the theorems are about these functions.

    Everything the outside world decides is in `Environment` and in the events: how many bytes a
    socket takes, whether the database queue has room, what the database answers, clocks and random
    tokens. */
module GameModel {
  import opened Wrappers
  import opened AoiGrid
  import opened FrameFormat
  import Tcp = TcpConnections

  type ConnectionId = nat
  type Descriptor = int
  type Ticket = nat

  // ---------------------------------------------------------------- data

  datatype PlayerRecord = PlayerRecord(
    playerId: PlayerId, account: string, nickname: string,
    x: real, y: real, z: real, lastLogin: int)

  datatype SessionRecord = SessionRecord(playerId: PlayerId, token: string)

  datatype OnlinePlayer = OnlinePlayer(record: PlayerRecord, connection: ConnectionId, token: string)

  datatype PlayerView = PlayerView(playerId: PlayerId, nickname: string, position: Position)

  /** LoginResponse is split into its success and failure forms. */
  datatype Message =
    | LoginAccepted(self: PlayerView, nearby: seq<PlayerView>, token: string)
    | LoginRefused(error: string)
    | PlayerEnter(player: PlayerView)
    | PlayerLeave(playerId: PlayerId)
    | PlayerMove(playerId: PlayerId, position: Position)
    | ChatBroadcast(playerId: PlayerId, nickname: string, text: string)
    | Heartbeat

  datatype Outgoing = Outgoing(to: ConnectionId, message: Message)

  datatype LoginRequest = LoginRequest(account: string, token: string)

  /** A frame from a client.  `None` (or `false`) means its payload does not parse; a move request
      without a position counts as unparsed, as both are ignored. */
  datatype Request =
    | LoginFrame(login: Option<LoginRequest>)
    | ChatFrame(text: Option<string>)
    | MoveFrame(target: Option<Position>)
    | HeartbeatFrame(parsed: bool)
    | OtherFrame

  datatype DataStatus = Ok | NotFound | InvalidArgument | Unavailable

  datatype DataResult<T> = DataResult(status: DataStatus, value: Option<T>) {
    predicate Good() {
      status == Ok && value.Some?
    }
  }

  /** The callbacks handed to `AsyncDataService`, with what each captured. */
  datatype Continuation =
    | AfterLoad(connection: ConnectionId, account: string, token: string)
    | AfterCreate(connection: ConnectionId, account: string, player: PlayerRecord)
    | AfterLoadSession(connection: ConnectionId, account: string, player: PlayerRecord, token: string, newlyCreated: bool)
    | AfterStoreSession(connection: ConnectionId, account: string, player: PlayerRecord, token: string, allowReplacement: bool)
    | AfterDisconnectSave(saved: PlayerRecord)

  datatype Reply =
    | PlayerReply(player: DataResult<PlayerRecord>)
    | SessionReply(session: DataResult<SessionRecord>)
    | OperationReply(status: DataStatus)

  /** Clock and random values a callback may draw. */
  datatype Choice = Choice(now: int, playerId: PlayerId, nickname: string, token: string)

  datatype Environment = Environment(
    aoi: AoiConfig,
    maximumChatBytes: nat,
    maximumConnections: nat,
    maximumPendingBytes: nat,                // of one connection's output
    encode: Message -> Frame,                // the Protobuf payload, behind its message id
    decode: Frame -> Request,
    sends: nat -> seq<Tcp.SendResult>,       // what the socket answers to the n-th message offered to it
    interest: nat -> bool,                   // whether epoll then takes the new interest
    accepts: nat -> bool                     // whether the n-th database request finds room
  )

  // ---------------------------------------------------------------- state

  /** `GameServer`'s tables; `sent` is every message queued to a connection, alive or not, and `handed`
      the number of bytes of them that its socket took. */
  datatype Net = Net(
    clients: map<Descriptor, ConnectionId>,
    descriptors: map<ConnectionId, Descriptor>,
    marked: set<ConnectionId>,
    lastId: nat,
    sent: map<ConnectionId, seq<Message>>,
    handed: map<ConnectionId, nat>,
    offers: nat)

  datatype Play = Play(
    world: map<PlayerId, Position>,
    online: map<PlayerId, OnlinePlayer>,
    bound: map<ConnectionId, PlayerId>)

  /** Login locks, and the database requests whose callbacks have not run yet. */
  datatype Login = Login(
    pendingConnections: map<ConnectionId, string>,
    pendingAccounts: set<string>,
    inflight: map<Ticket, Continuation>,
    requests: nat)

  datatype Game = Game(net: Net, play: Play, login: Login)

  const EMPTY: Game := Game(Net(map[], map[], {}, 0, map[], map[], 0), Play(map[], map[], map[]), Login(map[], {}, map[], 0))

  // ---------------------------------------------------------------- transport

  predicate IsConnected(net: Net, c: ConnectionId) {
    c in net.descriptors && c !in net.marked
  }

  function Sent(net: Net, c: ConnectionId): seq<Message> {
    if c in net.sent then net.sent[c] else []
  }

  predicate Encodable(env: Environment, log: seq<Message>) {
    forall i | 0 <= i < |log| :: Legal(env.encode(log[i]), DEFAULT_MAX_PAYLOAD_SIZE)
  }

  function Frames(env: Environment, log: seq<Message>): (frames: seq<Frame>)
    ensures |frames| == |log| && forall i | 0 <= i < |log| :: frames[i] == env.encode(log[i])
  {
    seq(|log|, i requires 0 <= i < |log| => env.encode(log[i]))
  }

  /** The messages of `log` as bytes; only messages that encode are ever queued. */
  function Wire(env: Environment, log: seq<Message>): seq<byte> {
    if Encodable(env, log) then EncodeAll(Frames(env, log)) else []
  }

  function Handed(net: Net, c: ConnectionId): nat {
    if c in net.handed then net.handed[c] else 0
  }

  /** Bytes queued to `c` that its socket has not taken yet. */
  function Pending(env: Environment, net: Net, c: ConnectionId): nat {
    var total := |Wire(env, Sent(net, c))|;
    if Handed(net, c) <= total then total - Handed(net, c) else 0
  }

  function Offer(env: Environment, net: Net, c: ConnectionId, m: Message): Tcp.Transmission {
    Tcp.Transmit(env.maximumPendingBytes, Pending(env, net, c), env.encode(m), env.sends(net.offers), env.interest(net.offers))
  }

  /** A message that is not queued, or not flushed, marks its connection for close. */
  function Posted(net: Net, c: ConnectionId, m: Message, offer: Tcp.Transmission): Net {
    net.(offers := net.offers + 1,
         sent := if offer.outcome == Tcp.Refused then net.sent else net.sent[c := Sent(net, c) + [m]],
         handed := net.handed[c := Handed(net, c) + offer.count],
         marked := if offer.outcome == Tcp.Queued then net.marked else net.marked + {c})
  }

  function Send(env: Environment, net: Net, c: ConnectionId, m: Message): Net {
    if c !in net.descriptors || net.descriptors[c] !in net.clients then net
    else Posted(net, c, m, Offer(env, net, c, m))
  }

  /** The socket became writable: as many pending bytes go as it takes. */
  function Flush(env: Environment, net: Net, c: ConnectionId, script: seq<Tcp.SendResult>): Net {
    net.(handed := net.handed[c := Handed(net, c) + Tcp.Taken(script, Pending(env, net, c)).count])
  }

  /** Messages offered one after another. */
  function SendEach(env: Environment, net: Net, out: seq<Outgoing>): Net {
    if out == [] then net
    else
      var last := out[|out| - 1];
      Send(env, SendEach(env, net, out[..|out| - 1]), last.to, last.message)
  }

  // ---------------------------------------------------------------- who is told what

  function ViewOf(record: PlayerRecord): PlayerView {
    PlayerView(record.playerId, record.nickname, Position(record.x, record.y))
  }

  /** `m` to every online player among `ids`. */
  function Broadcast(online: map<PlayerId, OnlinePlayer>, ids: seq<PlayerId>, m: Message): seq<Outgoing> {
    if ids == [] then []
    else
      var q := ids[|ids| - 1];
      Broadcast(online, ids[..|ids| - 1], m) + (if q in online then [Outgoing(online[q].connection, m)] else [])
  }

  /** Both sides of a change of view between the mover and each player among `ids`. */
  function Exchange(online: map<PlayerId, OnlinePlayer>, ids: seq<PlayerId>, mover: PlayerRecord, c: ConnectionId, entering: bool): seq<Outgoing> {
    if ids == [] then []
    else
      var q := ids[|ids| - 1];
      Exchange(online, ids[..|ids| - 1], mover, c, entering) +
      (if q !in online then []
       else if entering then [Outgoing(online[q].connection, PlayerEnter(ViewOf(mover))), Outgoing(c, PlayerEnter(ViewOf(online[q].record)))]
       else [Outgoing(online[q].connection, PlayerLeave(mover.playerId)), Outgoing(c, PlayerLeave(q))])
  }

  function Views(online: map<PlayerId, OnlinePlayer>, ids: seq<PlayerId>): seq<PlayerView> {
    if ids == [] then []
    else
      var q := ids[|ids| - 1];
      Views(online, ids[..|ids| - 1]) + (if q in online then [ViewOf(online[q].record)] else [])
  }

  // ---------------------------------------------------------------- database requests and locks

  function Submit(env: Environment, login: Login, k: Continuation): (r: (Login, bool)) {
    if env.accepts(login.requests)
    then (login.(inflight := login.inflight[login.requests := k], requests := login.requests + 1), true)
    else (login.(requests := login.requests + 1), false)
  }

  /** Drops the connection's pending login, and with it the lock on the account it names. */
  function CancelPending(login: Login, c: ConnectionId): Login {
    if c in login.pendingConnections
    then login.(pendingAccounts := login.pendingAccounts - {login.pendingConnections[c]},
                pendingConnections := login.pendingConnections - {c})
    else login
  }

  /** What a continuation does first: give up the login if the connection is gone or no longer
      waits for one. */
  predicate Stale(g: Game, c: ConnectionId) {
    !IsConnected(g.net, c) || c !in g.login.pendingConnections
  }

  function Release(login: Login, c: ConnectionId, account: string): Login {
    login.(pendingAccounts := login.pendingAccounts - {account}, pendingConnections := login.pendingConnections - {c})
  }

  function FailLogin(env: Environment, g: Game, c: ConnectionId, account: string, error: string): Game {
    var unlocked := if account != "" then g.login.(pendingAccounts := g.login.pendingAccounts - {account}) else g.login;
    var login := CancelPending(unlocked, c);
    if !IsConnected(g.net, c) then g.(login := login)
    else g.(login := login, net := Send(env, g.net, c, LoginRefused(error)))
  }

  // ---------------------------------------------------------------- closing

  function OnDisconnected(env: Environment, g: Game, c: ConnectionId): Game {
    var login := CancelPending(g.login, c);
    if c !in g.play.bound then g.(login := login)
    else
      var p := g.play.bound[c];
      if p !in g.play.online then g.(login := login, play := g.play.(bound := g.play.bound - {c}))
      else
        var visible := Visible(env.aoi, g.play.world, p);
        var play := Play(g.play.world - {p}, g.play.online - {p}, g.play.bound - {c});
        Game(SendEach(env, g.net, Broadcast(play.online, Ascending(visible), PlayerLeave(p))),
             play,
             Submit(env, login, AfterDisconnectSave(g.play.online[p].record)).0)
  }

  function CloseConnection(env: Environment, g: Game, c: ConnectionId): Game {
    if c !in g.net.descriptors then g.(net := g.net.(marked := g.net.marked - {c}))
    else
      var d := g.net.descriptors[c];
      var after := OnDisconnected(env, g, c);
      after.(net := after.net.(clients := after.net.clients - {d},
                               descriptors := after.net.descriptors - {c},
                               marked := after.net.marked - {c}))
  }

  // ---------------------------------------------------------------- logging in

  function HandleLogin(env: Environment, g: Game, c: ConnectionId, request: Option<LoginRequest>): Game {
    if request.None? || request.value.account == "" || |request.value.account| > 64 ||
       c in g.play.bound || c in g.login.pendingConnections
    then FailLogin(env, g, c, "", "invalid or duplicate login request")
    else
      var account := request.value.account;
      if account in g.login.pendingAccounts then FailLogin(env, g, c, "", "account login is already pending")
      else
        var login := g.login.(pendingConnections := g.login.pendingConnections[c := account],
                              pendingAccounts := g.login.pendingAccounts + {account});
        var (submitted, ok) := Submit(env, login, AfterLoad(c, account, request.value.token));
        var g' := g.(login := submitted);
        if ok then g' else FailLogin(env, g', c, account, "database queue is full")
  }

  /** A new player starts in the middle of the map. */
  function NewPlayer(env: Environment, account: string, choice: Choice): PlayerRecord {
    PlayerRecord(choice.playerId, account, choice.nickname,
                 (env.aoi.minX + env.aoi.maxX) / 2.0, (env.aoi.minY + env.aoi.maxY) / 2.0, 0.0, choice.now)
  }

  function OnPlayerLoaded(env: Environment, g: Game, c: ConnectionId, account: string, token: string,
                          result: DataResult<PlayerRecord>, choice: Choice): Game {
    if Stale(g, c) then g.(login := Release(g.login, c, account))
    else if result.Good() then ContinueLogin(env, g, c, result.value.value, token, false, choice)
    else if result.status != NotFound then FailLogin(env, g, c, account, "failed to load player")
    else if token != "" then FailLogin(env, g, c, account, "session does not exist")
    else
      var (login, ok) := Submit(env, g.login, AfterCreate(c, account, NewPlayer(env, account, choice)));
      var g' := g.(login := login);
      if ok then g' else FailLogin(env, g', c, account, "database queue is full")
  }

  function OnPlayerCreated(env: Environment, g: Game, c: ConnectionId, account: string, player: PlayerRecord,
                           status: DataStatus, choice: Choice): Game {
    if status != Ok then FailLogin(env, g, c, account, "failed to create player")
    else ContinueLogin(env, g, c, player, "", true, choice)
  }

  function ContinueLogin(env: Environment, g: Game, c: ConnectionId, loaded: PlayerRecord, token: string,
                         newlyCreated: bool, choice: Choice): Game {
    if Stale(g, c) then g.(login := Release(g.login, c, loaded.account))
    else
      var player := loaded.(lastLogin := choice.now);
      if token == "" then StoreSessionAndFinish(env, g, c, player, false, choice)
      else
        var (login, ok) := Submit(env, g.login, AfterLoadSession(c, player.account, player, token, newlyCreated));
        var g' := g.(login := login);
        if ok then g' else FailLogin(env, g', c, player.account, "database queue is full")
  }

  function OnSessionLoaded(env: Environment, g: Game, c: ConnectionId, account: string, player: PlayerRecord, token: string,
                           newlyCreated: bool, result: DataResult<SessionRecord>, choice: Choice): Game {
    if newlyCreated || !result.Good() || result.value.value.token != token
    then FailLogin(env, g, c, account, "invalid or expired session")
    else StoreSessionAndFinish(env, g, c, player, true, choice)
  }

  function StoreSessionAndFinish(env: Environment, g: Game, c: ConnectionId, player: PlayerRecord,
                                 allowReplacement: bool, choice: Choice): Game {
    if Stale(g, c) then g.(login := Release(g.login, c, player.account))
    else if player.playerId in g.play.online && !allowReplacement
    then FailLogin(env, g, c, player.account, "player is already online")
    else
      var (login, ok) := Submit(env, g.login, AfterStoreSession(c, player.account, player, choice.token, allowReplacement));
      var g' := g.(login := login);
      if ok then g' else FailLogin(env, g', c, player.account, "database queue is full")
  }

  function OnSessionStored(env: Environment, g: Game, c: ConnectionId, account: string, player: PlayerRecord, token: string,
                           allowReplacement: bool, status: DataStatus): Game {
    if status != Ok then FailLogin(env, g, c, account, "failed to store session")
    else FinishLogin(env, g, c, player, token, allowReplacement)
  }

  function FinishLogin(env: Environment, g: Game, c: ConnectionId, loaded: PlayerRecord, token: string, allowReplacement: bool): Game {
    if Stale(g, c) then g.(login := Release(g.login, c, loaded.account))
    else if loaded.playerId !in g.play.online then EnterWorld(env, g, c, loaded.account, loaded, token)
    else if !allowReplacement then FailLogin(env, g, c, loaded.account, "player is already online")
    else
      var displaced := g.play.online[loaded.playerId];
      EnterWorld(env, CloseConnection(env, g, displaced.connection), c, loaded.account, displaced.record, token)
  }

  /** The rest of `FinishLogin`: join the world, bind the connection, tell both sides. */
  function EnterWorld(env: Environment, g: Game, c: ConnectionId, account: string, player: PlayerRecord, token: string): Game {
    var p, at := player.playerId, Position(player.x, player.y);
    if p in g.play.world || !InMap(env.aoi, at) then FailLogin(env, g, c, account, "player position is outside the world")
    else
      var play := Play(
        g.play.world[p := at],
        if p in g.play.online then g.play.online else g.play.online[p := OnlinePlayer(player, c, token)],
        g.play.bound[c := p]);
      var visible := Ascending(Visible(env.aoi, play.world, p));
      var out := [Outgoing(c, LoginAccepted(ViewOf(player), Views(play.online, visible), token))] +
                 Broadcast(play.online, visible, PlayerEnter(ViewOf(player)));
      Game(SendEach(env, g.net, out), play, Release(g.login, c, account))
  }

  // ---------------------------------------------------------------- playing

  /** `order` is the order in which the hash table of online players is walked. */
  function HandleChat(env: Environment, g: Game, c: ConnectionId, text: Option<string>, order: seq<PlayerId>): Game {
    if c !in g.play.bound || g.play.bound[c] !in g.play.online ||
       text.None? || text.value == "" || |text.value| > env.maximumChatBytes then g
    else
      var sender := g.play.online[g.play.bound[c]].record;
      g.(net := SendEach(env, g.net, Broadcast(g.play.online, order, ChatBroadcast(sender.playerId, sender.nickname, text.value))))
  }

  function HandleMove(env: Environment, g: Game, c: ConnectionId, target: Option<Position>): Game {
    if c !in g.play.bound || g.play.bound[c] !in g.play.online || target.None? then g
    else
      var mover := g.play.online[g.play.bound[c]];
      var p, at := mover.record.playerId, target.value;
      if p !in g.play.world || !InMap(env.aoi, at) then g
      else
        var record := mover.record.(x := at.x, y := at.y);
        var play := g.play.(world := g.play.world[p := at],
                            online := g.play.online[g.play.bound[c] := mover.(record := record)]);
        var before, now := Visible(env.aoi, g.play.world, p), Visible(env.aoi, play.world, p);
        var out := Broadcast(play.online, Ascending(before * now), PlayerMove(p, at)) +
                   Exchange(play.online, Ascending(now - before), record, c, true) +
                   Exchange(play.online, Ascending(before - now), record, c, false);
        g.(net := SendEach(env, g.net, out), play := play)
  }

  function HandleHeartbeat(env: Environment, g: Game, c: ConnectionId, parsed: bool): Game {
    if parsed then g.(net := Send(env, g.net, c, Heartbeat)) else g
  }

  function HandleFrame(env: Environment, g: Game, c: ConnectionId, request: Request, order: seq<PlayerId>): Game {
    match request
    case LoginFrame(login) => HandleLogin(env, g, c, login)
    case ChatFrame(text) => HandleChat(env, g, c, text, order)
    case MoveFrame(target) => HandleMove(env, g, c, target)
    case HeartbeatFrame(parsed) => HandleHeartbeat(env, g, c, parsed)
    case OtherFrame => CloseConnection(env, g, c)
  }

  // ---------------------------------------------------------------- events

  /** A repository answers with the kind of result asked for, and with the record of the account
      asked for. */
  predicate Honest(k: Continuation, reply: Reply) {
    match k
    case AfterLoad(_, account, _) => reply.PlayerReply? && (reply.player.Good() ==> reply.player.value.value.account == account)
    case AfterLoadSession(_, _, _, _, _) => reply.SessionReply?
    case _ => reply.OperationReply?
  }

  /** Runs a callback. */
  function Resume(env: Environment, g: Game, k: Continuation, reply: Reply, choice: Choice): Game
    requires Honest(k, reply)
  {
    match k
    case AfterLoad(c, account, token) => OnPlayerLoaded(env, g, c, account, token, reply.player, choice)
    case AfterCreate(c, account, player) => OnPlayerCreated(env, g, c, account, player, reply.status, choice)
    case AfterLoadSession(c, account, player, token, newly) =>
      OnSessionLoaded(env, g, c, account, player, token, newly, reply.session, choice)
    case AfterStoreSession(c, account, player, token, allow) =>
      OnSessionStored(env, g, c, account, player, token, allow, reply.status)
    case AfterDisconnectSave(_) => g
  }

  function Deliver(env: Environment, g: Game, ticket: Ticket, reply: Reply, choice: Choice): Game
    requires ticket in g.login.inflight && Honest(g.login.inflight[ticket], reply)
  {
    Resume(env, g.(login := g.login.(inflight := g.login.inflight - {ticket})), g.login.inflight[ticket], reply, choice)
  }

  /** The transport with one more client, under the next connection id. */
  function Opened(net: Net, d: Descriptor): Net {
    var c := net.lastId + 1;
    net.(lastId := c, clients := net.clients[d := c], descriptors := net.descriptors[c := d],
         sent := net.sent[c := []], handed := net.handed[c := 0])
  }

  function Accept(env: Environment, g: Game, d: Descriptor, registered: bool): Game {
    if |g.net.clients| >= env.maximumConnections then g
    else if registered then g.(net := Opened(g.net, d))
    else CloseConnection(env, g.(net := Opened(g.net, d)), g.net.lastId + 1)
  }

  lemma RejectedRegistration(env: Environment, g: Game, d: Descriptor)
    ensures Accept(env, g, d, false) ==
      if |g.net.clients| >= env.maximumConnections then g
      else CloseConnection(env, g.(net := Opened(g.net, d)), g.net.lastId + 1)
  {}

  /** One event of the server: a connection accepted, a frame handled, a database callback run, a
      writable socket flushed, a connection marked because of its socket, a connection closed. */
  datatype Event =
    | Accepted(descriptor: Descriptor, registered: bool)
    | Handled(connection: ConnectionId, request: Request, order: seq<PlayerId>)
    | Delivered(ticket: Ticket, reply: Reply, choice: Choice)
    | Flushed(connection: ConnectionId, script: seq<Tcp.SendResult>)
    | Marked(connection: ConnectionId)
    | Closed(connection: ConnectionId)

  /** accept4 never returns a descriptor still in use; frames of a dead or marked connection are
      dropped. */
  predicate Enabled(g: Game, e: Event) {
    match e
    case Accepted(d, _) => d !in g.net.clients
    case Handled(c, _, _) => IsConnected(g.net, c)
    case Delivered(ticket, reply, _) => ticket in g.login.inflight && Honest(g.login.inflight[ticket], reply)
    case Flushed(c, _) => c in g.net.descriptors
    case Marked(c) => c in g.net.descriptors
    case Closed(c) => true
  }

  function Step(env: Environment, g: Game, e: Event): Game {
    if !Enabled(g, e) then g
    else match e
      case Accepted(d, registered) => Accept(env, g, d, registered)
      case Handled(c, request, order) => HandleFrame(env, g, c, request, order)
      case Delivered(ticket, reply, choice) => Deliver(env, g, ticket, reply, choice)
      case Flushed(c, script) => g.(net := Flush(env, g.net, c, script))
      case Marked(c) => g.(net := g.net.(marked := g.net.marked + {c}))
      case Closed(c) => CloseConnection(env, g, c)
  }

  function Run(env: Environment, g: Game, events: seq<Event>): Game {
    if events == [] then g
    else Step(env, Run(env, g, events[..|events| - 1]), events[|events| - 1])
  }
}
