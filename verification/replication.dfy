/** What a client knows.  A client rebuilds the players around it from the messages sent to it;
    this module defines that reconstruction, the truth it is compared with, and what each kind of
    broadcast puts into a client's inbox. */
module Replication {
  import opened AoiGrid
  import opened GameModel

  datatype Seen = Seen(nickname: string, position: Position)

  type Neighbours = map<PlayerId, Seen>

  // ---------------------------------------------------------------- the client's side

  function FromViews(views: seq<PlayerView>): Neighbours {
    if views == [] then map[]
    else
      var last := views[|views| - 1];
      FromViews(views[..|views| - 1])[last.playerId := Seen(last.nickname, last.position)]
  }

  function Learn(known: Neighbours, m: Message): Neighbours {
    match m
    case LoginAccepted(_, nearby, _) => FromViews(nearby)
    case PlayerEnter(v) => known[v.playerId := Seen(v.nickname, v.position)]
    case PlayerLeave(q) => known - {q}
    case PlayerMove(q, at) => if q in known then known[q := Seen(known[q].nickname, at)] else known
    case LoginRefused(_) | ChatBroadcast(_, _, _) | Heartbeat => known
  }

  function LearnAll(known: Neighbours, log: seq<Message>): Neighbours {
    if log == [] then known else Learn(LearnAll(known, log[..|log| - 1]), log[|log| - 1])
  }

  /** The neighbours a client knows after the messages of `log`. */
  function ClientView(log: seq<Message>): Neighbours {
    LearnAll(map[], log)
  }

  lemma {:induction false} LearnConcat(known: Neighbours, a: seq<Message>, b: seq<Message>)
    ensures LearnAll(known, a + b) == LearnAll(LearnAll(known, a), b)
    decreases |b|
  {
    if b == [] {
      assert a + b == a;
    } else {
      assert (a + b)[..|a + b| - 1] == a + b[..|b| - 1];
      LearnConcat(known, a, b[..|b| - 1]);
    }
  }

  // ---------------------------------------------------------------- the server's side

  function TrueView(aoi: AoiConfig, play: Play, p: PlayerId): Neighbours {
    map q | q in Visible(aoi, play.world, p) && q in play.online :: Seen(play.online[q].record.nickname, play.world[q])
  }

  /** The tables of players agree: online players are the players of the world, their records carry
      their world position, and players and connections are bound one to one. */
  predicate PlayOk(aoi: AoiConfig, play: Play) {
    && play.online.Keys == play.world.Keys
    && (forall p | p in play.online ::
          && play.online[p].record.playerId == p
          && Position(play.online[p].record.x, play.online[p].record.y) == play.world[p]
          && InMap(aoi, play.world[p])
          && play.online[p].connection in play.bound
          && play.bound[play.online[p].connection] == p)
    && (forall c | c in play.bound :: play.bound[c] in play.online && play.online[play.bound[c]].connection == c)
  }

  // ---------------------------------------------------------------- inboxes

  /** The part of `out` addressed to `c`. */
  function Inbox(out: seq<Outgoing>, c: ConnectionId): seq<Message> {
    if out == [] then []
    else Inbox(out[..|out| - 1], c) + (if out[|out| - 1].to == c then [out[|out| - 1].message] else [])
  }

  lemma {:induction false} InboxConcat(a: seq<Outgoing>, b: seq<Outgoing>, c: ConnectionId)
    ensures Inbox(a + b, c) == Inbox(a, c) + Inbox(b, c)
    decreases |b|
  {
    if b == [] {
      assert a + b == a;
    } else {
      assert (a + b)[..|a + b| - 1] == a + b[..|b| - 1];
      InboxConcat(a, b[..|b| - 1], c);
    }
  }

  /** No two online players share a connection. */
  predicate Distinct(online: map<PlayerId, OnlinePlayer>) {
    forall p, q | p in online && q in online && p != q :: online[p].connection != online[q].connection
  }

  lemma BoundMeansDistinct(aoi: AoiConfig, play: Play)
    requires PlayOk(aoi, play)
    ensures Distinct(play.online)
  {}

  lemma InboxOne(o: Outgoing, c: ConnectionId)
    ensures Inbox([o], c) == if o.to == c then [o.message] else []
  {
    assert [o][..0] == [];
  }

  lemma InboxTwo(o: Outgoing, o': Outgoing, c: ConnectionId)
    ensures Inbox([o, o'], c) == (if o.to == c then [o.message] else []) + (if o'.to == c then [o'.message] else [])
  {
    assert [o, o'][..1] == [o];
    InboxOne(o, c);
  }

  predicate NoRepeats(ids: seq<PlayerId>) {
    forall i, j | 0 <= i < j < |ids| :: ids[i] != ids[j]
  }

  lemma SplitLast(ids: seq<PlayerId>, q: PlayerId)
    requires ids != [] && NoRepeats(ids)
    ensures NoRepeats(ids[..|ids| - 1]) && ids[|ids| - 1] !in ids[..|ids| - 1]
    ensures q in ids <==> q in ids[..|ids| - 1] || q == ids[|ids| - 1]
  {
    assert ids == ids[..|ids| - 1] + [ids[|ids| - 1]];
  }

  /** A broadcast reaches each addressed player once and nobody else. */
  lemma {:induction false} InboxOfBroadcast(online: map<PlayerId, OnlinePlayer>, ids: seq<PlayerId>, m: Message, q: PlayerId)
    requires Distinct(online) && NoRepeats(ids) && q in online
    ensures Inbox(Broadcast(online, ids, m), online[q].connection) == if q in ids then [m] else []
    decreases |ids|
  {
    if ids != [] {
      var front, last := ids[..|ids| - 1], ids[|ids| - 1];
      SplitLast(ids, q);
      InboxOfBroadcast(online, front, m, q);
      if last in online {
        InboxOne(Outgoing(online[last].connection, m), online[q].connection);
        InboxConcat(Broadcast(online, front, m), [Outgoing(online[last].connection, m)], online[q].connection);
      } else {
        assert Broadcast(online, front, m) + [] == Broadcast(online, front, m);
      }
    }
  }

  /** Nobody's connection but those of online players is written to. */
  lemma {:induction false} InboxOfStranger(online: map<PlayerId, OnlinePlayer>, ids: seq<PlayerId>, m: Message, c: ConnectionId)
    requires forall q | q in online :: online[q].connection != c
    ensures Inbox(Broadcast(online, ids, m), c) == []
    decreases |ids|
  {
    if ids != [] {
      var front, last := ids[..|ids| - 1], ids[|ids| - 1];
      InboxOfStranger(online, front, m, c);
      if last in online {
        InboxOne(Outgoing(online[last].connection, m), c);
        InboxConcat(Broadcast(online, front, m), [Outgoing(online[last].connection, m)], c);
      } else {
        assert Broadcast(online, front, m) + [] == Broadcast(online, front, m);
      }
    }
  }

  function Notice(online: map<PlayerId, OnlinePlayer>, q: PlayerId, entering: bool): Message
    requires q in online
  {
    if entering then PlayerEnter(ViewOf(online[q].record)) else PlayerLeave(q)
  }

  /** What the mover is told about the players in `ids`. */
  function Notices(online: map<PlayerId, OnlinePlayer>, ids: seq<PlayerId>, entering: bool): seq<Message> {
    if ids == [] then []
    else
      var q := ids[|ids| - 1];
      Notices(online, ids[..|ids| - 1], entering) + (if q in online then [Notice(online, q, entering)] else [])
  }

  /** What another player is told about the mover. */
  function Announcement(mover: PlayerRecord, entering: bool): Message {
    if entering then PlayerEnter(ViewOf(mover)) else PlayerLeave(mover.playerId)
  }

  lemma ExchangeStep(online: map<PlayerId, OnlinePlayer>, ids: seq<PlayerId>, mover: PlayerRecord, c: ConnectionId,
                     entering: bool, d: ConnectionId)
    requires ids != [] && ids[|ids| - 1] in online
    ensures var last := ids[|ids| - 1];
      Inbox(Exchange(online, ids, mover, c, entering), d) ==
        Inbox(Exchange(online, ids[..|ids| - 1], mover, c, entering), d) +
        ((if online[last].connection == d then [Announcement(mover, entering)] else []) +
         (if c == d then [Notice(online, last, entering)] else []))
  {
    var last := ids[|ids| - 1];
    var first := Outgoing(online[last].connection, Announcement(mover, entering));
    var second := Outgoing(c, Notice(online, last, entering));
    assert Exchange(online, ids, mover, c, entering) == Exchange(online, ids[..|ids| - 1], mover, c, entering) + [first, second];
    InboxConcat(Exchange(online, ids[..|ids| - 1], mover, c, entering), [first, second], d);
    InboxTwo(first, second, d);
  }

  /** In an exchange each addressed player hears of the mover once. */
  lemma {:induction false} InboxOfExchange(online: map<PlayerId, OnlinePlayer>, ids: seq<PlayerId>, mover: PlayerRecord,
                                           c: ConnectionId, entering: bool, q: PlayerId)
    requires Distinct(online) && NoRepeats(ids) && q in online && online[q].connection != c
    ensures Inbox(Exchange(online, ids, mover, c, entering), online[q].connection) ==
      if q in ids then [Announcement(mover, entering)] else []
    decreases |ids|
  {
    if ids != [] {
      var front, last := ids[..|ids| - 1], ids[|ids| - 1];
      SplitLast(ids, q);
      InboxOfExchange(online, front, mover, c, entering, q);
      if last in online {
        ExchangeStep(online, ids, mover, c, entering, online[q].connection);
      } else {
        assert Exchange(online, front, mover, c, entering) + [] == Exchange(online, front, mover, c, entering);
      }
    }
  }

  /** In an exchange the mover hears of each addressed player. */
  lemma {:induction false} InboxOfMover(online: map<PlayerId, OnlinePlayer>, ids: seq<PlayerId>, mover: PlayerRecord,
                                        c: ConnectionId, entering: bool)
    requires forall q | q in ids && q in online :: online[q].connection != c
    ensures Inbox(Exchange(online, ids, mover, c, entering), c) == Notices(online, ids, entering)
    decreases |ids|
  {
    if ids != [] {
      var front, last := ids[..|ids| - 1], ids[|ids| - 1];
      assert forall q | q in front :: q in ids;
      InboxOfMover(online, front, mover, c, entering);
      if last in online {
        ExchangeStep(online, ids, mover, c, entering, c);
      } else {
        assert Exchange(online, front, mover, c, entering) + [] == Exchange(online, front, mover, c, entering);
      }
    }
  }

  // ---------------------------------------------------------------- what the messages teach

  function Faces(online: map<PlayerId, OnlinePlayer>, ids: seq<PlayerId>): Neighbours {
    map q | q in ids && q in online :: Face(online[q])
  }

  function Face(player: OnlinePlayer): Seen {
    Seen(player.record.nickname, Position(player.record.x, player.record.y))
  }

  lemma FacesStep(online: map<PlayerId, OnlinePlayer>, ids: seq<PlayerId>)
    requires ids != []
    ensures var front, last := ids[..|ids| - 1], ids[|ids| - 1];
      Faces(online, ids) ==
        if last in online then Faces(online, front)[last := Face(online[last])] else Faces(online, front)
  {
    assert ids == ids[..|ids| - 1] + [ids[|ids| - 1]];
  }

  lemma AddLast(known: Neighbours, more: Neighbours, q: PlayerId, face: Seen)
    ensures known + more[q := face] == (known + more)[q := face]
  {}

  lemma {:induction false} LearnArrivals(known: Neighbours, online: map<PlayerId, OnlinePlayer>, ids: seq<PlayerId>)
    requires forall q | q in online :: online[q].record.playerId == q
    ensures LearnAll(known, Notices(online, ids, true)) == known + Faces(online, ids)
    decreases |ids|
  {
    if ids == [] {
      assert known + Faces(online, ids) == known;
    } else {
      var front, last := ids[..|ids| - 1], ids[|ids| - 1];
      LearnArrivals(known, online, front);
      FacesStep(online, ids);
      if last in online {
        LearnLast(known, Notices(online, front, true), Notice(online, last, true));
        AddLast(known, Faces(online, front), last, Face(online[last]));
      } else {
        assert Notices(online, front, true) + [] == Notices(online, front, true);
      }
    }
  }

  lemma LearnLast(known: Neighbours, log: seq<Message>, m: Message)
    ensures LearnAll(known, log + [m]) == Learn(LearnAll(known, log), m)
  {
    assert (log + [m])[..|log|] == log;
  }

  function Without(known: Neighbours, ids: seq<PlayerId>): Neighbours {
    map q | q in known && q !in ids :: known[q]
  }

  lemma WithoutLast(known: Neighbours, ids: seq<PlayerId>)
    requires ids != []
    ensures Without(known, ids) == Without(known, ids[..|ids| - 1]) - {ids[|ids| - 1]}
  {
    var front, last := ids[..|ids| - 1], ids[|ids| - 1];
    assert ids == front + [last];
    assert forall q :: q in ids <==> q in front || q == last;
  }

  lemma {:induction false} LearnDepartures(known: Neighbours, online: map<PlayerId, OnlinePlayer>, ids: seq<PlayerId>)
    requires forall q | q in ids :: q in online
    ensures LearnAll(known, Notices(online, ids, false)) == Without(known, ids)
    decreases |ids|
  {
    if ids == [] {
      assert Without(known, ids) == known;
    } else {
      var front, last := ids[..|ids| - 1], ids[|ids| - 1];
      assert forall q | q in front :: q in ids;
      LearnDepartures(known, online, front);
      LearnLast(known, Notices(online, front, false), Notice(online, last, false));
      WithoutLast(known, ids);
    }
  }

  lemma {:induction false} ViewsAreFaces(online: map<PlayerId, OnlinePlayer>, ids: seq<PlayerId>)
    requires forall q | q in online :: online[q].record.playerId == q
    ensures FromViews(Views(online, ids)) == Faces(online, ids)
    decreases |ids|
  {
    if ids != [] {
      var front, last := ids[..|ids| - 1], ids[|ids| - 1];
      ViewsAreFaces(online, front);
      FacesStep(online, ids);
      if last in online {
        assert Views(online, ids)[..|Views(online, ids)| - 1] == Views(online, front);
      } else {
        assert Views(online, front) + [] == Views(online, front);
      }
    }
  }

  /** The true view, in terms of records instead of the world. */
  lemma TrueViewIsFaces(aoi: AoiConfig, play: Play, p: PlayerId)
    requires PlayOk(aoi, play)
    ensures TrueView(aoi, play, p) == Faces(play.online, Ascending(Visible(aoi, play.world, p)))
  {}
}
