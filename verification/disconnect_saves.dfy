/** What becomes of a player's state when its connection closes. */
module DisconnectSaves {
  import opened Wrappers
  import opened AoiGrid
  import opened GameModel
  import opened ViewChanges
  import opened ServerSteps
  import opened LoginLocks
  import opened ServerRuns
  import opened Departures
  import opened DatabaseRequests

  // ---------------------------------------------------------------- the fate of a save

  /** The `i`-th event is the database's answer that it stored `record` on request `t`. */
  ghost predicate StoredAt(env: Environment, g: Game, later: seq<Event>, i: nat, t: Ticket, record: PlayerRecord) {
    i < |later| && Confirms(Run(env, g, later[..i]), later[i], t, record)
  }

  ghost predicate Stores(env: Environment, g: Game, later: seq<Event>, t: Ticket, record: PlayerRecord) {
    exists i: nat :: StoredAt(env, g, later, i, t, record)
  }

  predicate Confirms(g: Game, e: Event, t: Ticket, record: PlayerRecord) {
    Enabled(g, e) && Answers(e, t) && g.login.inflight[t] == AfterDisconnectSave(record) && e.reply.status == Ok
  }

  /** The first answer to request `t`, if there is one: a request is answered once. */
  function Answer(later: seq<Event>, t: Ticket): Option<DataStatus> {
    if later == [] then None
    else
      var earlier, last := Answer(later[..|later| - 1], t), later[|later| - 1];
      if earlier.Some? then earlier
      else if Answers(last, t) && last.reply.OperationReply? then Some(last.reply.status)
      else None
  }

  lemma StoredBefore(env: Environment, g: Game, later: seq<Event>, n: nat, i: nat, t: Ticket, record: PlayerRecord)
    requires i < n <= |later|
    ensures StoredAt(env, g, later[..n], i, t, record) <==> StoredAt(env, g, later, i, t, record)
  {
    assert later[..n][..i] == later[..i];
  }

  lemma StoresOneMore(env: Environment, g: Game, later: seq<Event>, t: Ticket, record: PlayerRecord)
    requires later != []
    ensures var front, last := later[..|later| - 1], later[|later| - 1];
      Stores(env, g, later, t, record) <==>
        Stores(env, g, front, t, record) || Confirms(Run(env, g, front), last, t, record)
  {
    var n := |later| - 1;
    if Stores(env, g, later[..n], t, record) {
      var i: nat :| StoredAt(env, g, later[..n], i, t, record);
      StoredBefore(env, g, later, n, i, t, record);
    }
    if Confirms(Run(env, g, later[..n]), later[n], t, record) {
      assert StoredAt(env, g, later, n, t, record);
    }
    if Stores(env, g, later, t, record) {
      var i: nat :| StoredAt(env, g, later, i, t, record);
      if i < n {
        StoredBefore(env, g, later, n, i, t, record);
      }
    }
  }

  /** Whatever else happens, the request to save stays in flight until it is answered, is answered once,
      and the record is stored exactly if that answer is Ok. */
  lemma {:induction false} FateOfSave(env: Environment, g: Game, later: seq<Event>, t: Ticket, record: PlayerRecord)
    requires Inv(env, g) && t in g.login.inflight && g.login.inflight[t] == AfterDisconnectSave(record)
    ensures Stores(env, g, later, t, record) <==> Answer(later, t) == Some(Ok)
    ensures var after := Run(env, g, later).login;
      && t < after.requests
      && (if Answer(later, t).None? then t in after.inflight && after.inflight[t] == AfterDisconnectSave(record)
          else t !in after.inflight)
    decreases |later|
  {
    if later != [] {
      var front, last := later[..|later| - 1], later[|later| - 1];
      var before := Run(env, g, front);
      FateOfSave(env, g, front, t, record);
      RunKeepsInv(env, g, front);
      StepExtends(env, before, last, t);
      StoresOneMore(env, g, later, t, record);
    }
  }

  /** The reply to a save is dropped: a failure changes nothing and starts nothing. */
  lemma SaveReplyIsIgnored(env: Environment, g: Game, t: Ticket, reply: Reply, choice: Choice)
    requires t in g.login.inflight && g.login.inflight[t].AfterDisconnectSave? && reply.OperationReply?
    ensures Deliver(env, g, t, reply, choice) == g.(login := g.login.(inflight := g.login.inflight - {t}))
  {}

  /** A request started between `before` and `after` gets `record` stored. */
  ghost predicate SavedSince(env: Environment, before: Game, after: Game, later: seq<Event>, record: PlayerRecord) {
    exists t :: t in after.login.inflight && t !in before.login.inflight && Stores(env, after, later, t, record)
  }

  lemma SavedByOneRequest(env: Environment, before: Game, after: Game, later: seq<Event>, record: PlayerRecord)
    requires AsksToSave(env, before.login, after.login, record)
    ensures SavedSince(env, before, after, later, record) <==>
      env.accepts(before.login.requests) && Stores(env, after, later, before.login.requests, record)
  {}

  /** In every run, whichever event closes a player's connection, what its state was then gets stored
      if and only if the request queue had room at that moment and the database answers that one
      request with Ok. */
  lemma SavedExactlyIf(env: Environment, g: Game, p: PlayerId, e: Event, later: seq<Event>)
    requires Reachable(env, g) && p in g.play.online
    requires g.play.online[p].connection !in Step(env, g, e).net.descriptors
    ensures SavedSince(env, g, Step(env, g, e), later, g.play.online[p].record)
      <==> env.accepts(g.login.requests) && Answer(later, g.login.requests) == Some(Ok)
  {
    var t, after, record := g.login.requests, Step(env, g, e), g.play.online[p].record;
    ReachableInv(env, g);
    LeavingAsksToSave(env, g, e, p);
    SavedByOneRequest(env, g, after, later, record);
    if env.accepts(t) {
      InvAfter(env, g, e);
      FateOfSave(env, after, later, t, record);
    }
  }

  lemma InvAfter(env: Environment, g: Game, e: Event)
    requires Reachable(env, g)
    ensures Inv(env, Step(env, g, e))
  {
    ReachableInv(env, g);
    StepKeeps(env, g, e);
    StepSettles(env, g, e);
  }

  /** A login of account "a" whose player the database knows, and then a disconnect. */
  function LoginThenDisconnect(record: PlayerRecord, choice: Choice): seq<Event> {
    [Accepted(7, true),
     Handled(1, LoginFrame(Some(LoginRequest("a", ""))), []),
     Delivered(0, PlayerReply(DataResult(Ok, Some(record))), choice),
     Delivered(1, OperationReply(Ok), choice),
     Closed(1)]
  }

  lemma RunFive(env: Environment, e: seq<Event>)
    requires |e| == 5
    ensures Run(env, EMPTY, e[..4]) == Step(env, Step(env, Step(env, Step(env, EMPTY, e[0]), e[1]), e[2]), e[3])
    ensures Run(env, EMPTY, e) == Step(env, Run(env, EMPTY, e[..4]), e[4])
  {
    assert e[..4][..3] == e[..3] && e[..3][..2] == e[..2] && e[..2][..1] == e[..1] && e[..1][..0] == [];
    assert Run(env, EMPTY, e[..1]) == Step(env, EMPTY, e[0]);
    assert Run(env, EMPTY, e[..2]) == Step(env, Run(env, EMPTY, e[..1]), e[1]);
    assert Run(env, EMPTY, e[..3]) == Step(env, Run(env, EMPTY, e[..2]), e[2]);
  }

  /** Connection 1 has been accepted, and waits for its session to be stored. */
  function AboutToFinish(record: PlayerRecord, choice: Choice): Game {
    Game(Opened(EMPTY.net, 7), EMPTY.play,
         Login(map[1 := "a"], {"a"},
               map[1 := AfterStoreSession(1, "a", record.(lastLogin := choice.now), choice.token, false)], 2))
  }

  lemma LoginProceeds(env: Environment, record: PlayerRecord, choice: Choice)
    requires env.maximumConnections > 0 && env.accepts(0) && env.accepts(1) && record.account == "a"
    ensures var e := LoginThenDisconnect(record, choice);
      Step(env, Step(env, Step(env, EMPTY, e[0]), e[1]), e[2]) == AboutToFinish(record, choice)
  {
    var e := LoginThenDisconnect(record, choice);
    var g1 := Step(env, EMPTY, e[0]);
    assert g1 == EMPTY.(net := Opened(EMPTY.net, 7));
    var g2 := Step(env, g1, e[1]);
    assert g2 == g1.(login := Login(map[1 := "a"], {"a"}, map[0 := AfterLoad(1, "a", "")], 1));
    var g3 := Step(env, g2, e[2]);
    assert g3.login == AboutToFinish(record, choice).login;
  }

  lemma LoginFinishes(env: Environment, record: PlayerRecord, choice: Choice)
    requires InMap(env.aoi, Position(record.x, record.y)) && record.account == "a"
    ensures var e, player := LoginThenDisconnect(record, choice), record.(lastLogin := choice.now);
      var after := Step(env, AboutToFinish(record, choice), e[3]);
      && after.play == Arrived(EMPTY.play, 1, player, choice.token)
      && after.login == Login(map[], {}, map[], 2)
      && 1 in after.net.descriptors
  {
    var g, player := AboutToFinish(record, choice), record.(lastLogin := choice.now);
    var login := g.login.(inflight := map[]);
    assert g.login.inflight - {1} == map[];
    assert Step(env, g, LoginThenDisconnect(record, choice)[3]) ==
      EnterWorld(env, g.(login := login), 1, "a", player, choice.token);
    assert Release(login, 1, "a") == Login(map[], {}, map[], 2);
    assert EnterWorld(env, g.(login := login), 1, "a", player, choice.token) == Game(
      SendEach(env, g.net, ArrivalNews(env.aoi, Arrived(EMPTY.play, 1, player, choice.token), 1, player, choice.token)),
      Arrived(EMPTY.play, 1, player, choice.token), Login(map[], {}, map[], 2));
    SendEachKeepsTables(env, g.net, ArrivalNews(env.aoi, Arrived(EMPTY.play, 1, player, choice.token), 1, player, choice.token));
  }

  lemma {:induction false} SendEachKeepsTables(env: Environment, net: Net, out: seq<Outgoing>)
    ensures SendEach(env, net, out).descriptors == net.descriptors
    decreases |out|
  {
    if out != [] {
      SendEachKeepsTables(env, net, out[..|out| - 1]);
    }
  }

  lemma DroppedWhenFull(env: Environment, g: Game, player: PlayerRecord, token: string)
    requires g.play == Arrived(EMPTY.play, 1, player, token) && 1 in g.net.descriptors
    requires g.login == Login(map[], {}, map[], 2) && !env.accepts(2)
    ensures Step(env, g, Closed(1)).play.online == map[] && Step(env, g, Closed(1)).login.inflight == map[]
  {
    CloseLogin(env, g, 1);
  }

  /** A run in which a disconnect loses the player's state: the queue is full when it closes. */
  lemma ASaveIsLost(env: Environment, record: PlayerRecord, choice: Choice)
    requires env.maximumConnections > 0 && env.accepts(0) && env.accepts(1) && !env.accepts(2)
    requires record.account == "a" && InMap(env.aoi, Position(record.x, record.y))
    ensures var events := LoginThenDisconnect(record, choice);
      var before, after := Run(env, EMPTY, events[..4]), Run(env, EMPTY, events);
      && record.playerId in before.play.online && before.play.online[record.playerId].connection == 1
      && after.play.online == map[] && after.login.inflight == map[]
  {
    RunFive(env, LoginThenDisconnect(record, choice));
    LoginProceeds(env, record, choice);
    LoginFinishes(env, record, choice);
    var g := Step(env, AboutToFinish(record, choice), LoginThenDisconnect(record, choice)[3]);
    DroppedWhenFull(env, g, record.(lastLogin := choice.now), choice.token);
  }
}
