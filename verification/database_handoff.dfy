/** The game and the thread pool together.  The game's requests are the pool's tasks, the callbacks
    that the owner thread pops are the game's continuations, and the pool's queue decides which
    requests find room.  So what either half promises about "in flight" and "delivered" is the same
    thing, and a system at rest has nobody waiting. */
module DatabaseHandoff {
  import opened Wrappers
  import opened GameModel
  import opened LoginLocks
  import opened ServerSteps
  import opened DatabaseRequests
  import opened Departures
  import opened EventScripts
  import Pool = CompletionPipeline

  // ---------------------------------------------------------------- the joint system

  /** `tickets[i]` is the request that became task `i`; `called` says that the callback which the owner
      has popped has already run, though the owner has not gone on yet. */
  datatype Joint = Joint(pool: Pool.Pipeline, game: Game, tickets: seq<Ticket>, called: bool)

  function Start(workers: nat, capacity: nat): Joint
    requires workers > 0 && capacity > 0
  {
    Joint(Pool.Start(workers, capacity), EMPTY, [], false)
  }

  /** The threads move; the event loop serves an event of the network; a popped callback runs. */
  datatype Move =
    | Threads(step: Pool.Step)
    | Serve(event: Event)
    | Callback(reply: Reply, choice: Choice)

  function Current(owner: Pool.Owner): Option<Pool.TaskId> {
    if owner.InCallback? || owner.InFinalCallback? then Some(owner.task) else None
  }

  function Room(pool: Pool.Pipeline): bool {
    Pool.SubmitRegion(pool.tasks, pool.accepting, pool.capacity, pool.submitted).1
  }

  predicate Asks(env: Environment, g: Game, e: Event) {
    Step(env, g, e).login.requests > g.login.requests
  }

  /** The event can be handled by the owner thread now, and the game learns the truth about the queue. */
  predicate MayHandle(env: Environment, j: Joint, e: Event) {
    && !j.pool.owesSignal && GameModel.Enabled(j.game, e)
    && (Asks(env, j.game, e) ==> env.accepts(j.game.login.requests) == Room(j.pool))
  }

  /** The event that runs the popped callback. */
  function Popped(j: Joint, reply: Reply, choice: Choice): Event
    requires Current(j.pool.owner).Some? && Current(j.pool.owner).value < |j.tickets|
  {
    Delivered(j.tickets[Current(j.pool.owner).value], reply, choice)
  }

  predicate Enabled(env: Environment, j: Joint, m: Move) {
    match m
    case Threads(step) =>
      && !step.Submit? && Pool.Enabled(j.pool, step)
      && (step.FinishCallback? ==> j.called)
      && (step.BeginShutdown? ==> j.game.net.descriptors == map[])  // the destructor closes everything first
    case Serve(e) => j.pool.owner.Idle? && !e.Delivered? && MayHandle(env, j, e)
    case Callback(reply, choice) =>
      && Current(j.pool.owner).Some? && Current(j.pool.owner).value < |j.tickets| && !j.called
      && MayHandle(env, j, Popped(j, reply, choice))
  }

  /** The owner thread handles an event, and with it makes the request, if any, that the event makes. */
  function Handle(env: Environment, j: Joint, e: Event): Joint
    requires Pool.MaySubmit(j.pool.owner) && MayHandle(env, j, e)
  {
    var after := Step(env, j.game, e);
    if !Asks(env, j.game, e) then j.(game := after)
    else j.(game := after, pool := Pool.Apply(j.pool, Pool.Submit),
            tickets := if Room(j.pool) then j.tickets + [j.game.login.requests] else j.tickets)
  }

  function Apply(env: Environment, j: Joint, m: Move): Joint
    requires Enabled(env, j, m)
  {
    match m
    case Threads(step) =>
      j.(pool := Pool.Apply(j.pool, step), called := if step.Pop? || step.FinishCallback? then false else j.called)
    case Serve(e) => Handle(env, j, e)
    case Callback(reply, choice) => Handle(env, j, Popped(j, reply, choice)).(called := true)
  }

  function Run(env: Environment, j: Joint, moves: seq<Move>): Joint {
    if moves == [] then j
    else
      var before, last := Run(env, j, moves[..|moves| - 1]), moves[|moves| - 1];
      if Enabled(env, before, last) then Apply(env, before, last) else before
  }

  // ---------------------------------------------------------------- the invariant

  /** Task `i` has been accepted and its callback has not run. */
  predicate Waits(j: Joint, i: nat) {
    Pool.Times(i, j.pool.delivered) == 0 && !(j.called && Current(j.pool.owner) == Some(i))
  }

  /** `n` tasks, numbered in the order in which the requests were made. */
  predicate Numbered(tickets: seq<Ticket>, n: nat, requests: nat) {
    && |tickets| == n
    && (forall i | 0 <= i < n :: tickets[i] < requests)
    && (forall i, k | 0 <= i < k < n :: tickets[i] < tickets[k])
  }

  /** The requests in flight are exactly the accepted tasks whose callbacks have not run. */
  ghost predicate Matched(j: Joint) {
    && Numbered(j.tickets, j.pool.submitted, j.game.login.requests)
    && (forall i | 0 <= i < |j.tickets| :: j.tickets[i] in j.game.login.inflight <==> Waits(j, i))
    && (forall t | t in j.game.login.inflight :: t in j.tickets)
  }

  /** Once the pool is closed there are no connections. */
  predicate PhaseOk(j: Joint) {
    && (j.called ==> Current(j.pool.owner).Some?)
    && (!j.pool.accepting ==> j.game.net.descriptors == map[])
  }

  ghost predicate Inv(env: Environment, j: Joint) {
    Pool.Inv(j.pool) && ServerRuns.Inv(env, j.game) && Matched(j) && PhaseOk(j)
  }

  /** What the owner has popped is an accepted task that has not been delivered before. */
  lemma CurrentIsUndelivered(p: Pool.Pipeline)
    requires Pool.Conserved(p) && Current(p.owner).Some?
    ensures Current(p.owner).value < p.submitted && Pool.Times(Current(p.owner).value, p.delivered) == 0
  {
    var t := Current(p.owner).value;
    Pool.TimesOne(t, t);
    assert Pool.Sightings(p, t) == if t < p.submitted then 1 else 0;
  }

  lemma NewTaskIsUndelivered(p: Pool.Pipeline)
    requires Pool.Conserved(p)
    ensures Pool.Times(p.submitted, p.delivered) == 0
  {
    assert Pool.Sightings(p, p.submitted) == 0;
  }

  // ---------------------------------------------------------------- moves keep it

  lemma FinishMatches(env: Environment, j: Joint)
    requires Inv(env, j) && Enabled(env, j, Threads(Pool.FinishCallback))
    ensures Matched(Apply(env, j, Threads(Pool.FinishCallback)))
  {
    var after, task := Apply(env, j, Threads(Pool.FinishCallback)), j.pool.owner.task;
    forall i | 0 <= i < |j.tickets|
      ensures Waits(after, i) <==> Waits(j, i)
    {
      Pool.TimesAppend(i, j.pool.delivered, task);
    }
  }

  lemma PopMatches(env: Environment, j: Joint)
    requires Inv(env, j) && Enabled(env, j, Threads(Pool.Pop))
    ensures Matched(Apply(env, j, Threads(Pool.Pop)))
  {
    var after := Apply(env, j, Threads(Pool.Pop));
    assert forall i | 0 <= i < |j.tickets| :: Waits(after, i) <==> Waits(j, i);
  }

  lemma OtherStepsMatch(env: Environment, j: Joint, step: Pool.Step)
    requires Inv(env, j) && Enabled(env, j, Threads(step)) && !step.FinishCallback? && !step.Pop?
    ensures Matched(Apply(env, j, Threads(step)))
  {
    var after := Apply(env, j, Threads(step));
    assert after.pool.delivered == j.pool.delivered && after.pool.submitted == j.pool.submitted;
    assert Current(after.pool.owner) == Current(j.pool.owner);
    assert forall i | 0 <= i < |j.tickets| :: Waits(after, i) <==> Waits(j, i);
  }

  lemma ThreadsKeep(env: Environment, j: Joint, step: Pool.Step)
    requires Inv(env, j) && Enabled(env, j, Threads(step))
    ensures Inv(env, Apply(env, j, Threads(step)))
  {
    Pool.StepKeepsInv(j.pool, step);
    match step
    case FinishCallback => FinishMatches(env, j);
    case Pop => PopMatches(env, j);
    case _ => OtherStepsMatch(env, j, step);
  }

  /** What the event adds: the request that it makes, if the queue takes it, is the newest task. */
  function Added(env: Environment, j: Joint, e: Event): seq<Ticket> {
    if Asks(env, j.game, e) && Room(j.pool) then [j.game.login.requests] else []
  }

  lemma HandleMatches(env: Environment, j: Joint, e: Event)
    requires Inv(env, j) && Pool.MaySubmit(j.pool.owner) && MayHandle(env, j, e)
    ensures var after, added := Handle(env, j, e), Added(env, j, e);
      && after.tickets == j.tickets + added && after.pool.submitted == j.pool.submitted + |added|
      && after.pool.delivered == j.pool.delivered && after.pool.owner == j.pool.owner
      && (forall t :: t in after.game.login.inflight <==> t in Taken(j.game, e).inflight || t in added)
      && (forall t | t in added :: t == j.game.login.requests < after.game.login.requests)
      && j.game.login.requests <= after.game.login.requests
  {
    StepAsksOnce(env, j.game, e);
    assert j.tickets + [] == j.tickets;
  }

  lemma NumberedGrows(tickets: seq<Ticket>, n: nat, requests: nat, added: seq<Ticket>, more: nat)
    requires Numbered(tickets, n, requests) && requests <= more
    requires added == [] || (added == [requests] && requests < more)
    ensures Numbered(tickets + added, n + |added|, more)
  {}

  /** Tickets and tables before and after: `kept` is what was in flight and stays so. */
  lemma TicketsMatch(tickets: seq<Ticket>, n: nat, requests: nat, kept: set<Ticket>, added: seq<Ticket>, after: set<Ticket>)
    requires Numbered(tickets, n, requests) && (added == [] || added == [requests])
    requires forall t | t in kept :: t in tickets
    requires forall t :: t in after <==> t in kept || t in added
    ensures forall t | t in after :: t in tickets + added
    ensures forall i | 0 <= i < n :: (tickets + added)[i] == tickets[i] && (tickets[i] in after <==> tickets[i] in kept)
    ensures forall i | n <= i < |tickets + added| :: i == n && (tickets + added)[i] in after
  {}

  lemma HandleCovers(env: Environment, j: Joint, e: Event)
    requires Inv(env, j) && Pool.MaySubmit(j.pool.owner) && MayHandle(env, j, e)
    ensures var after := Handle(env, j, e);
      && Numbered(after.tickets, after.pool.submitted, after.game.login.requests)
      && (forall t | t in after.game.login.inflight :: t in after.tickets)
      && (forall i | |j.tickets| <= i < |after.tickets| :: after.tickets[i] in after.game.login.inflight && i == j.pool.submitted)
      && (forall i | 0 <= i < |j.tickets| ::
            after.tickets[i] == j.tickets[i] &&
            (after.tickets[i] in after.game.login.inflight <==> j.tickets[i] in Taken(j.game, e).inflight))
  {
    HandleMatches(env, j, e);
    var after, added := Handle(env, j, e), Added(env, j, e);
    NumberedGrows(j.tickets, j.pool.submitted, j.game.login.requests, added, after.game.login.requests);
    TicketsMatch(j.tickets, j.pool.submitted, j.game.login.requests, Taken(j.game, e).inflight.Keys, added, after.game.login.inflight.Keys);
  }

  lemma ServeMatches(env: Environment, j: Joint, e: Event)
    requires Inv(env, j) && Enabled(env, j, Serve(e))
    ensures Matched(Apply(env, j, Serve(e)))
  {
    HandleMatches(env, j, e);
    HandleCovers(env, j, e);
    NewTaskIsUndelivered(j.pool);
    var after := Handle(env, j, e);
    assert forall i | 0 <= i < |j.tickets| :: Waits(after, i) <==> Waits(j, i);
  }

  lemma CallbackMatches(env: Environment, j: Joint, reply: Reply, choice: Choice)
    requires Inv(env, j) && Enabled(env, j, Callback(reply, choice))
    ensures Matched(Apply(env, j, Callback(reply, choice)))
  {
    var e, task := Popped(j, reply, choice), Current(j.pool.owner).value;
    HandleMatches(env, j, e);
    HandleCovers(env, j, e);
    NewTaskIsUndelivered(j.pool);
    CurrentIsUndelivered(j.pool);
    var after := Apply(env, j, Callback(reply, choice));
    forall i | 0 <= i < |j.tickets|
      ensures j.tickets[i] in Taken(j.game, e).inflight <==> Waits(after, i)
    {
      assert j.tickets[i] in j.game.login.inflight <==> Waits(j, i);
      assert i != task ==> j.tickets[i] != j.tickets[task];
    }
  }

  /** With the pool closed, callbacks open nothing. */
  lemma CallbackKeepsPhase(env: Environment, j: Joint, reply: Reply, choice: Choice)
    requires Inv(env, j) && Enabled(env, j, Callback(reply, choice))
    ensures PhaseOk(Apply(env, j, Callback(reply, choice)))
  {
    var e := Popped(j, reply, choice);
    DeliverCloses(env, j.game, e.ticket, reply, choice);
  }

  lemma EventKeepsGame(env: Environment, g: Game, e: Event)
    requires ServerRuns.Inv(env, g)
    ensures ServerRuns.Inv(env, Step(env, g, e))
  {
    StepKeeps(env, g, e);
    StepSettles(env, g, e);
  }

  lemma MoveKeepsInv(env: Environment, j: Joint, m: Move)
    requires Inv(env, j) && Enabled(env, j, m)
    ensures Inv(env, Apply(env, j, m))
  {
    match m
    case Threads(step) => ThreadsKeep(env, j, step);
    case Serve(e) =>
      EventKeepsGame(env, j.game, e);
      Pool.StepKeepsInv(j.pool, Pool.Submit);
      ServeMatches(env, j, e);
    case Callback(reply, choice) =>
      EventKeepsGame(env, j.game, Popped(j, reply, choice));
      Pool.StepKeepsInv(j.pool, Pool.Submit);
      CallbackMatches(env, j, reply, choice);
      CallbackKeepsPhase(env, j, reply, choice);
  }

  lemma {:induction false} RunKeepsInv(env: Environment, j: Joint, moves: seq<Move>)
    requires Inv(env, j)
    ensures Inv(env, Run(env, j, moves))
    decreases |moves|
  {
    if moves != [] {
      var before, last := Run(env, j, moves[..|moves| - 1]), moves[|moves| - 1];
      RunKeepsInv(env, j, moves[..|moves| - 1]);
      if Enabled(env, before, last) {
        MoveKeepsInv(env, before, last);
      }
    }
  }

  ghost predicate Reachable(env: Environment, j: Joint) {
    exists workers: nat, capacity: nat, moves :: workers > 0 && capacity > 0 && j == Run(env, Start(workers, capacity), moves)
  }

  lemma ReachableInv(env: Environment, j: Joint)
    requires Reachable(env, j)
    ensures Inv(env, j)
  {
    var workers: nat, capacity: nat, moves :| workers > 0 && capacity > 0 && j == Run(env, Start(workers, capacity), moves);
    Pool.StartInv(workers, capacity);
    EmptyConsistent(env);
    RunKeepsInv(env, Start(workers, capacity), moves);
  }

  // ---------------------------------------------------------------- what follows

  /** Whatever callback the owner pops, the game is waiting for it, and it has not run before. */
  lemma PoppedIsAwaited(env: Environment, j: Joint)
    requires Reachable(env, j) && Current(j.pool.owner).Some? && !j.called
    ensures var task := Current(j.pool.owner).value;
      task < |j.tickets| && j.tickets[task] in j.game.login.inflight
  {
    ReachableInv(env, j);
    CurrentIsUndelivered(j.pool);
  }

  lemma RestMeansNothingInFlight(env: Environment, j: Joint)
    requires Inv(env, j) && Pool.Quiescent(j.pool)
    ensures j.game.login.inflight == map[]
  {
    forall t
      ensures t !in j.game.login.inflight
    {
      if t in j.tickets {
        var i :| 0 <= i < |j.tickets| && j.tickets[i] == t;
        Pool.AtRest(j.pool, i);
      }
    }
  }

  /** In every interleaving of the game with the threads: once these have come to rest, no login waits,
      no account is locked and no callback is outstanding. */
  lemma NobodyWaitsAtRest(env: Environment, j: Joint)
    requires Reachable(env, j) && Pool.Quiescent(j.pool)
    ensures j.game.login.inflight == map[]
    ensures j.game.login.pendingConnections == map[] && j.game.login.pendingAccounts == {}
  {
    ReachableInv(env, j);
    RestMeansNothingInFlight(env, j);
    assert forall c :: c in j.game.login.pendingConnections ==> Served(j.game.login, c);
    assert forall a :: a in j.game.login.pendingAccounts ==> Claimed(j.game.login, a);
  }

  /** The destructor: when it is through, in whatever interleaving, every callback has run and all
      tables are empty. */
  lemma ShutdownLeavesNothing(env: Environment, j: Joint)
    requires Reachable(env, j) && j.pool.owner.Stopped?
    ensures j.game.net.clients == map[] && j.game.net.descriptors == map[] && j.game.net.marked == {}
    ensures j.game.play == EMPTY.play
    ensures j.game.login.inflight == map[] && j.game.login.pendingConnections == map[] && j.game.login.pendingAccounts == {}
  {
    ReachableInv(env, j);
    RestMeansNothingInFlight(env, j);
    NothingLeft(env, j.game);
  }
}
