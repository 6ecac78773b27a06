/** World chat: unlike everything else a player does, it is not limited to the players in view. */
module Chat {
  import opened Wrappers
  import opened AoiGrid
  import opened GameModel
  import opened Replication
  import opened ServerInvariants
  import opened ServerRuns

  /** What is sent on: non-empty text of bounded length, from a player who is online. */
  predicate MayChat(env: Environment, g: Game, c: ConnectionId, text: Option<string>) {
    && c in g.play.bound && g.play.bound[c] in g.play.online
    && text.Some? && 0 < |text.value| <= env.maximumChatBytes
  }

  /** A walk over the whole table of online players. */
  ghost predicate Everyone(online: map<PlayerId, OnlinePlayer>, order: seq<PlayerId>) {
    NoRepeats(order) && forall q :: q in order <==> q in online
  }

  /** Every player online, the sender included, gets the text once under the sender's name, in
      whatever order they are served; a connection without a player gets nothing, and neither does
      anyone if the text is not sent on. */
  lemma ChatReachesEveryone(env: Environment, g: Game, c: ConnectionId, text: Option<string>, order: seq<PlayerId>, d: ConnectionId)
    requires Reachable(env, g) && Everyone(g.play.online, order)
    requires d in g.net.descriptors && d !in HandleChat(env, g, c, text, order).net.marked
    ensures HandleChat(env, g, c, text, order).play == g.play && HandleChat(env, g, c, text, order).login == g.login
    ensures Sent(HandleChat(env, g, c, text, order).net, d) == Sent(g.net, d) +
      if MayChat(env, g, c, text) && d in g.play.bound
      then [ChatBroadcast(g.play.bound[c], g.play.online[g.play.bound[c]].record.nickname, text.value)] else []
  {
    ReachableInv(env, g);
    if MayChat(env, g, c, text) {
      var sender := g.play.online[g.play.bound[c]].record;
      var m := ChatBroadcast(sender.playerId, sender.nickname, text.value);
      SendEachDelivers(env, g.net, Broadcast(g.play.online, order, m), d);
      if d in g.play.bound {
        InboxOfBroadcast(g.play.online, order, m, g.play.bound[d]);
      } else {
        InboxOfStranger(g.play.online, order, m, d);
      }
    }
  }
}
