/** The three ways in which views change (someone arrives, leaves or moves), each with the messages
    the server sends for it: in every case a client that knew the old truth and hears its share of
    the messages knows the new truth. */
module ViewChanges {
  import opened AoiGrid
  import opened GameModel
  import opened Replication

  // ---------------------------------------------------------------- leaving

  function Departed(play: Play, c: ConnectionId, p: PlayerId): Play {
    Play(play.world - {p}, play.online - {p}, play.bound - {c})
  }

  function DepartureNews(aoi: AoiConfig, play: Play, p: PlayerId): seq<Outgoing> {
    Broadcast(play.online - {p}, Ascending(Visible(aoi, play.world, p)), PlayerLeave(p))
  }

  lemma DepartedOk(aoi: AoiConfig, play: Play, c: ConnectionId)
    requires PlayOk(aoi, play) && c in play.bound
    ensures PlayOk(aoi, Departed(play, c, play.bound[c]))
  {}

  lemma DepartureInbox(aoi: AoiConfig, play: Play, c: ConnectionId, q: PlayerId)
    requires PlayOk(aoi, play) && c in play.bound && q in play.online && q != play.bound[c]
    ensures var p := play.bound[c];
      Inbox(DepartureNews(aoi, play, p), play.online[q].connection) ==
        if q in Visible(aoi, play.world, p) then [PlayerLeave(p)] else []
  {
    var p := play.bound[c];
    BoundMeansDistinct(aoi, play);
    InboxOfBroadcast(play.online - {p}, Ascending(Visible(aoi, play.world, p)), PlayerLeave(p), q);
  }

  lemma DepartureTruth(aoi: AoiConfig, play: Play, c: ConnectionId, q: PlayerId)
    requires PlayOk(aoi, play) && c in play.bound && q in play.online && q != play.bound[c]
    ensures var p, known := play.bound[c], TrueView(aoi, play, q);
      && TrueView(aoi, Departed(play, c, p), q) == known - {p}
      && (q in Visible(aoi, play.world, p) <==> p in known)
  {
    DepartureViews(aoi, play.world, play.bound[c], q);
  }

  lemma DepartureIsLearnt(aoi: AoiConfig, play: Play, c: ConnectionId, q: PlayerId)
    requires PlayOk(aoi, play) && c in play.bound && q in play.online && q != play.bound[c]
    ensures var p := play.bound[c];
      LearnAll(TrueView(aoi, play, q), Inbox(DepartureNews(aoi, play, p), play.online[q].connection))
        == TrueView(aoi, Departed(play, c, p), q)
  {
    DepartureInbox(aoi, play, c, q);
    DepartureTruth(aoi, play, c, q);
    LearnSingle(TrueView(aoi, play, q), PlayerLeave(play.bound[c]));
  }

  lemma LearnSingle(known: Neighbours, m: Message)
    ensures LearnAll(known, [m]) == Learn(known, m)
  {
    LearnLast(known, [], m);
    assert [] + [m] == [m];
  }

  // ---------------------------------------------------------------- arriving

  function Arrived(play: Play, c: ConnectionId, record: PlayerRecord, token: string): Play {
    var p := record.playerId;
    Play(play.world[p := Position(record.x, record.y)],
         play.online[p := OnlinePlayer(record, c, token)],
         play.bound[c := p])
  }

  function ArrivalNews(aoi: AoiConfig, after: Play, c: ConnectionId, record: PlayerRecord, token: string): seq<Outgoing> {
    var visible := Ascending(Visible(aoi, after.world, record.playerId));
    [Outgoing(c, LoginAccepted(ViewOf(record), Views(after.online, visible), token))] +
      Broadcast(after.online, visible, PlayerEnter(ViewOf(record)))
  }

  predicate MayArrive(aoi: AoiConfig, play: Play, c: ConnectionId, record: PlayerRecord) {
    && PlayOk(aoi, play)
    && record.playerId !in play.world && InMap(aoi, Position(record.x, record.y))
    && c !in play.bound
  }

  lemma ArrivedOk(aoi: AoiConfig, play: Play, c: ConnectionId, record: PlayerRecord, token: string)
    requires MayArrive(aoi, play, c, record)
    ensures PlayOk(aoi, Arrived(play, c, record, token))
  {}

  /** The newcomer itself starts from the neighbours listed in its login response. */
  lemma NewcomerLearns(aoi: AoiConfig, play: Play, c: ConnectionId, record: PlayerRecord, token: string, known: Neighbours)
    requires MayArrive(aoi, play, c, record)
    ensures var after := Arrived(play, c, record, token);
      LearnAll(known, Inbox(ArrivalNews(aoi, after, c, record, token), c)) == TrueView(aoi, after, record.playerId)
  {
    var after, p := Arrived(play, c, record, token), record.playerId;
    ArrivedOk(aoi, play, c, record, token);
    var visible := Ascending(Visible(aoi, after.world, p));
    var welcome := LoginAccepted(ViewOf(record), Views(after.online, visible), token);
    var news := Broadcast(after.online, visible, PlayerEnter(ViewOf(record)));
    BoundMeansDistinct(aoi, after);
    InboxOfBroadcast(after.online, visible, PlayerEnter(ViewOf(record)), p);
    InboxConcat([Outgoing(c, welcome)], news, c);
    InboxOne(Outgoing(c, welcome), c);
    LearnLast(known, [], welcome);
    assert [] + [welcome] == [welcome] == [welcome] + [];
    ViewsAreFaces(after.online, visible);
    TrueViewIsFaces(aoi, after, p);
  }

  lemma ArrivalInbox(aoi: AoiConfig, play: Play, c: ConnectionId, record: PlayerRecord, token: string, q: PlayerId)
    requires MayArrive(aoi, play, c, record) && q in play.online
    ensures var after := Arrived(play, c, record, token);
      Inbox(ArrivalNews(aoi, after, c, record, token), play.online[q].connection) ==
        if q in Visible(aoi, after.world, record.playerId) then [PlayerEnter(ViewOf(record))] else []
  {
    var after := Arrived(play, c, record, token);
    ArrivedOk(aoi, play, c, record, token);
    var visible := Ascending(Visible(aoi, after.world, record.playerId));
    var welcome := LoginAccepted(ViewOf(record), Views(after.online, visible), token);
    var m := PlayerEnter(ViewOf(record));
    BoundMeansDistinct(aoi, after);
    InboxOfBroadcast(after.online, visible, m, q);
    InboxConcat([Outgoing(c, welcome)], Broadcast(after.online, visible, m), play.online[q].connection);
    InboxOne(Outgoing(c, welcome), play.online[q].connection);
  }

  lemma ArrivalTruth(aoi: AoiConfig, play: Play, c: ConnectionId, record: PlayerRecord, token: string, q: PlayerId)
    requires MayArrive(aoi, play, c, record) && q in play.online
    ensures var after, p := Arrived(play, c, record, token), record.playerId;
      TrueView(aoi, after, q) ==
        if q in Visible(aoi, after.world, p)
        then TrueView(aoi, play, q)[p := Seen(record.nickname, Position(record.x, record.y))]
        else TrueView(aoi, play, q)
  {
    ArrivalViews(aoi, play.world, record.playerId, Position(record.x, record.y), q);
  }

  lemma ArrivalIsLearnt(aoi: AoiConfig, play: Play, c: ConnectionId, record: PlayerRecord, token: string, q: PlayerId)
    requires MayArrive(aoi, play, c, record) && q in play.online
    ensures var after := Arrived(play, c, record, token);
      LearnAll(TrueView(aoi, play, q), Inbox(ArrivalNews(aoi, after, c, record, token), play.online[q].connection))
        == TrueView(aoi, after, q)
  {
    ArrivalInbox(aoi, play, c, record, token, q);
    ArrivalTruth(aoi, play, c, record, token, q);
    LearnSingle(TrueView(aoi, play, q), PlayerEnter(ViewOf(record)));
  }

  // ---------------------------------------------------------------- moving

  function Relocated(play: Play, p: PlayerId, at: Position): Play
    requires p in play.online
  {
    var mover := play.online[p];
    play.(world := play.world[p := at], online := play.online[p := mover.(record := mover.record.(x := at.x, y := at.y))])
  }

  function MoveNews(aoi: AoiConfig, play: Play, p: PlayerId, at: Position): seq<Outgoing>
    requires p in play.online
  {
    var after := Relocated(play, p, at);
    var before, now := Visible(aoi, play.world, p), Visible(aoi, after.world, p);
    Broadcast(after.online, Ascending(before * now), PlayerMove(p, at)) +
      Exchange(after.online, Ascending(now - before), after.online[p].record, after.online[p].connection, true) +
      Exchange(after.online, Ascending(before - now), after.online[p].record, after.online[p].connection, false)
  }

  lemma RelocatedOk(aoi: AoiConfig, play: Play, p: PlayerId, at: Position)
    requires PlayOk(aoi, play) && p in play.online && InMap(aoi, at)
    ensures PlayOk(aoi, Relocated(play, p, at))
  {}

  /** What another player's inbox gets from a move: one message if the mover was or is in view. */
  lemma MoveInbox(aoi: AoiConfig, play: Play, p: PlayerId, at: Position, q: PlayerId)
    requires PlayOk(aoi, play) && p in play.online && InMap(aoi, at) && q in play.online && q != p
    ensures var after := Relocated(play, p, at);
      var before, now := Visible(aoi, play.world, p), Visible(aoi, after.world, p);
      Inbox(MoveNews(aoi, play, p, at), play.online[q].connection) ==
        if q in before * now then [PlayerMove(p, at)]
        else if q in now - before then [PlayerEnter(ViewOf(after.online[p].record))]
        else if q in before - now then [PlayerLeave(p)]
        else []
  {
    var after := Relocated(play, p, at);
    var before, now := Visible(aoi, play.world, p), Visible(aoi, after.world, p);
    var mover, d := after.online[p], play.online[q].connection;
    RelocatedOk(aoi, play, p, at);
    BoundMeansDistinct(aoi, after);
    var a := Broadcast(after.online, Ascending(before * now), PlayerMove(p, at));
    var b := Exchange(after.online, Ascending(now - before), mover.record, mover.connection, true);
    var e := Exchange(after.online, Ascending(before - now), mover.record, mover.connection, false);
    InboxConcat(a + b, e, d);
    InboxConcat(a, b, d);
    InboxOfBroadcast(after.online, Ascending(before * now), PlayerMove(p, at), q);
    InboxOfExchange(after.online, Ascending(now - before), mover.record, mover.connection, true, q);
    InboxOfExchange(after.online, Ascending(before - now), mover.record, mover.connection, false, q);
  }

  lemma MoveTruth(aoi: AoiConfig, play: Play, p: PlayerId, at: Position, q: PlayerId)
    requires PlayOk(aoi, play) && p in play.online && InMap(aoi, at) && q in play.online && q != p
    ensures var after := Relocated(play, p, at);
      var before, now := Visible(aoi, play.world, p), Visible(aoi, after.world, p);
      var known := TrueView(aoi, play, q);
      && (q in before <==> p in known)
      && (p in known ==> known[p].nickname == play.online[p].record.nickname)
      && TrueView(aoi, after, q) ==
        if q in now then known[p := Seen(play.online[p].record.nickname, at)]
        else if q in before then known - {p}
        else known
  {
    MoveViews(aoi, play.world, p, at, q);
  }

  lemma MoveIsLearnt(aoi: AoiConfig, play: Play, p: PlayerId, at: Position, q: PlayerId)
    requires PlayOk(aoi, play) && p in play.online && InMap(aoi, at) && q in play.online && q != p
    ensures LearnAll(TrueView(aoi, play, q), Inbox(MoveNews(aoi, play, p, at), play.online[q].connection))
      == TrueView(aoi, Relocated(play, p, at), q)
  {
    MoveInbox(aoi, play, p, at, q);
    MoveTruth(aoi, play, p, at, q);
    var known := TrueView(aoi, play, q);
    LearnSingle(known, PlayerMove(p, at));
    LearnSingle(known, PlayerEnter(ViewOf(Relocated(play, p, at).online[p].record)));
    LearnSingle(known, PlayerLeave(p));
  }

  lemma MoverInbox(aoi: AoiConfig, play: Play, p: PlayerId, at: Position)
    requires PlayOk(aoi, play) && p in play.online && InMap(aoi, at)
    ensures var after := Relocated(play, p, at);
      var before, now := Visible(aoi, play.world, p), Visible(aoi, after.world, p);
      Inbox(MoveNews(aoi, play, p, at), play.online[p].connection) ==
        Notices(after.online, Ascending(now - before), true) + Notices(after.online, Ascending(before - now), false)
  {
    var after := Relocated(play, p, at);
    var before, now := Visible(aoi, play.world, p), Visible(aoi, after.world, p);
    var mover, c := after.online[p], play.online[p].connection;
    RelocatedOk(aoi, play, p, at);
    BoundMeansDistinct(aoi, after);
    var a := Broadcast(after.online, Ascending(before * now), PlayerMove(p, at));
    var b := Exchange(after.online, Ascending(now - before), mover.record, c, true);
    var e := Exchange(after.online, Ascending(before - now), mover.record, c, false);
    InboxConcat(a + b, e, c);
    InboxConcat(a, b, c);
    InboxOfBroadcast(after.online, Ascending(before * now), PlayerMove(p, at), p);
    InboxOfMover(after.online, Ascending(now - before), mover.record, c, true);
    InboxOfMover(after.online, Ascending(before - now), mover.record, c, false);
    assert [] + Notices(after.online, Ascending(now - before), true) == Notices(after.online, Ascending(now - before), true);
  }

  lemma MoverTruth(aoi: AoiConfig, play: Play, p: PlayerId, at: Position)
    requires PlayOk(aoi, play) && p in play.online && InMap(aoi, at)
    ensures var after := Relocated(play, p, at);
      var before, now := Visible(aoi, play.world, p), Visible(aoi, after.world, p);
      var known := TrueView(aoi, play, p) + Faces(after.online, Ascending(now - before));
      TrueView(aoi, after, p) == map q | q in known && q !in Ascending(before - now) :: known[q]
  {
    RelocatedOk(aoi, play, p, at);
  }

  /** The mover, who hears of everyone it gains or loses sight of. */
  lemma MoverLearns(aoi: AoiConfig, play: Play, p: PlayerId, at: Position)
    requires PlayOk(aoi, play) && p in play.online && InMap(aoi, at)
    ensures LearnAll(TrueView(aoi, play, p), Inbox(MoveNews(aoi, play, p, at), play.online[p].connection))
      == TrueView(aoi, Relocated(play, p, at), p)
  {
    RelocatedOk(aoi, play, p, at);
    MoverInbox(aoi, play, p, at);
    MoverTruth(aoi, play, p, at);
    var after := Relocated(play, p, at);
    var before, now := Visible(aoi, play.world, p), Visible(aoi, after.world, p);
    LearnBoth(TrueView(aoi, play, p), after.online, Ascending(now - before), Ascending(before - now), TrueView(aoi, after, p));
  }

  lemma LearnBoth(known: Neighbours, online: map<PlayerId, OnlinePlayer>, entered: seq<PlayerId>, left: seq<PlayerId>,
                  truth: Neighbours)
    requires forall q | q in online :: online[q].record.playerId == q
    requires forall q | q in left :: q in online
    requires truth == map q | q in known + Faces(online, entered) && q !in left :: (known + Faces(online, entered))[q]
    ensures LearnAll(known, Notices(online, entered, true) + Notices(online, left, false)) == truth
  {
    LearnConcat(known, Notices(online, entered, true), Notices(online, left, false));
    LearnArrivals(known, online, entered);
    LearnDepartures(known + Faces(online, entered), online, left);
  }
}
