/** The hand-off between the event-loop thread (the owner) and the database workers: a bounded
    task queue guarded by a condition variable one way, a completion queue guarded by an eventfd
    the other way.  One step per lock region, per notification and per wake-up; any interleaving
    of steps is a run.  Tasks are numbered in the order in which they were accepted. */
module CompletionPipeline {
  import opened Wrappers

  type TaskId = nat

  /** `Checking`: about to take the pool's mutex.  `Waiting`: blocked on the condition variable.
      `Signalling`: has pushed onto an empty completion queue, released its mutex, and not yet
      written the eventfd. */
  datatype Worker = Checking | Waiting | Running(task: TaskId) | Signalling | Exited

  /** `Idle` covers everything the event loop does outside the eventfd handler.  `Stopping` is
      Shutdown between releasing the mutex and notifying all; `Final...` is the destructor's last
      drain, after the workers have been joined. */
  datatype Owner =
    | Idle | Draining | InCallback(task: TaskId)
    | Stopping | Joining | FinalDraining | InFinalCallback(task: TaskId) | Stopped

  datatype Pipeline = Pipeline(
    capacity: nat,
    tasks: seq<TaskId>,
    accepting: bool,
    workers: seq<Worker>,
    completions: seq<TaskId>,
    counter: nat,            // the eventfd
    owner: Owner,
    owesSignal: bool,        // the owner is between TrySubmit's unlock and its notify_one
    delivered: seq<TaskId>,  // callbacks run, in order
    submitted: nat           // calls that returned true
  )

  // ---------------------------------------------------------------- lock regions

  function SubmitRegion(tasks: seq<TaskId>, accepting: bool, capacity: nat, task: TaskId): (r: (seq<TaskId>, bool)) {
    if !accepting || |tasks| >= capacity then (tasks, false) else (tasks + [task], true)
  }

  datatype Verdict = Wait | Exit | Take(task: TaskId)

  function TakeRegion(tasks: seq<TaskId>, accepting: bool): (seq<TaskId>, Verdict) {
    if tasks == [] then (tasks, if accepting then Wait else Exit) else (tasks[1..], Take(tasks[0]))
  }

  function PushRegion(completions: seq<TaskId>, task: TaskId): (seq<TaskId>, bool) {
    (completions + [task], completions == [])
  }

  function PopRegion(completions: seq<TaskId>): (seq<TaskId>, Option<TaskId>) {
    if completions == [] then (completions, None) else (completions[1..], Some(completions[0]))
  }

  // ---------------------------------------------------------------- steps

  datatype Step =
    | Submit
    | NotifyOne(worker: nat)
    | SpuriousWakeup(worker: nat)
    | TakeTask(worker: nat)
    | PushCompletion(worker: nat)
    | NotifyOwner(worker: nat)
    | Consume
    | Pop
    | FinishCallback
    | BeginShutdown
    | NotifyAll
    | Join

  predicate IsWorker(p: Pipeline, w: nat, state: Worker) {
    w < |p.workers| && p.workers[w] == state
  }

  predicate MaySubmit(owner: Owner) {
    owner.Idle? || owner.InCallback? || owner.InFinalCallback?
  }

  predicate Enabled(p: Pipeline, step: Step) {
    match step
    case Submit => MaySubmit(p.owner) && !p.owesSignal
    case NotifyOne(w) => p.owesSignal && (IsWorker(p, w, Waiting) || !Has(p.workers, Waiting))
    case SpuriousWakeup(w) => IsWorker(p, w, Waiting)
    case TakeTask(w) => IsWorker(p, w, Checking)
    case PushCompletion(w) => w < |p.workers| && p.workers[w].Running?
    case NotifyOwner(w) => IsWorker(p, w, Signalling)
    case Consume => p.owner.Idle? && !p.owesSignal && p.counter > 0
    case Pop => p.owner.Draining? || p.owner.FinalDraining?
    case FinishCallback => (p.owner.InCallback? || p.owner.InFinalCallback?) && !p.owesSignal
    case BeginShutdown => p.owner.Idle? && !p.owesSignal
    case NotifyAll => p.owner.Stopping?
    case Join => p.owner.Joining? && AllExited(p.workers)
  }

  function WakeAll(workers: seq<Worker>): (woken: seq<Worker>)
    ensures |woken| == |workers|
    ensures forall i | 0 <= i < |workers| :: woken[i] == if workers[i].Waiting? then Checking else workers[i]
  {
    if workers == [] then []
    else [if workers[0].Waiting? then Checking else workers[0]] + WakeAll(workers[1..])
  }

  function Apply(p: Pipeline, step: Step): Pipeline
    requires Enabled(p, step)
  {
    match step
    case Submit =>
      var (tasks, ok) := SubmitRegion(p.tasks, p.accepting, p.capacity, p.submitted);
      if ok then p.(tasks := tasks, submitted := p.submitted + 1, owesSignal := true) else p
    case NotifyOne(w) =>
      if IsWorker(p, w, Waiting) then p.(workers := p.workers[w := Checking], owesSignal := false)
      else p.(owesSignal := false)
    case SpuriousWakeup(w) => p.(workers := p.workers[w := Checking])
    case TakeTask(w) =>
      var (tasks, verdict) := TakeRegion(p.tasks, p.accepting);
      var next := match verdict case Wait => Waiting case Exit => Exited case Take(t) => Running(t);
      p.(tasks := tasks, workers := p.workers[w := next])
    case PushCompletion(w) =>
      var (completions, wasEmpty) := PushRegion(p.completions, p.workers[w].task);
      p.(completions := completions, workers := p.workers[w := if wasEmpty then Signalling else Checking])
    case NotifyOwner(w) => p.(counter := p.counter + 1, workers := p.workers[w := Checking])
    case Consume => p.(counter := 0, owner := Draining)
    case Pop =>
      var (completions, front) := PopRegion(p.completions);
      if front.None? then p.(owner := if p.owner.Draining? then Idle else Stopped)
      else p.(completions := completions,
              owner := if p.owner.Draining? then InCallback(front.value) else InFinalCallback(front.value))
    case FinishCallback =>
      p.(delivered := p.delivered + [p.owner.task], owner := if p.owner.InCallback? then Draining else FinalDraining)
    case BeginShutdown => p.(accepting := false, owner := Stopping)
    case NotifyAll => p.(workers := WakeAll(p.workers), owner := Joining)
    case Join => p.(owner := FinalDraining)
  }

  /** A run; steps that are not enabled are passed over. */
  function Run(p: Pipeline, steps: seq<Step>): Pipeline {
    if steps == [] then p
    else
      var before := Run(p, steps[..|steps| - 1]);
      var last := steps[|steps| - 1];
      if Enabled(before, last) then Apply(before, last) else before
  }

  function Checkers(n: nat): (workers: seq<Worker>)
    ensures |workers| == n && forall i | 0 <= i < n :: workers[i] == Checking
  {
    if n == 0 then [] else Checkers(n - 1) + [Checking]
  }

  /** A new pool rejects zero workers and zero capacity. */
  function Start(workerCount: nat, capacity: nat): Pipeline
    requires workerCount > 0 && capacity > 0
  {
    Pipeline(capacity, [], true, Checkers(workerCount), [], 0, Idle, false, [], 0)
  }

  // ---------------------------------------------------------------- where the tasks are

  function Numbers(n: nat): (ids: seq<TaskId>)
    ensures |ids| == n && forall i | 0 <= i < n :: ids[i] == i
  {
    if n == 0 then [] else Numbers(n - 1) + [n - 1]
  }

  function HeldBy(worker: Worker): seq<TaskId> {
    if worker.Running? then [worker.task] else []
  }

  function HeldByOwner(owner: Owner): seq<TaskId> {
    if owner.InCallback? || owner.InFinalCallback? then [owner.task] else []
  }

  function Times(t: TaskId, ids: seq<TaskId>): nat {
    if ids == [] then 0 else (if ids[0] == t then 1 else 0) + Times(t, ids[1..])
  }

  function TimesHeld(t: TaskId, workers: seq<Worker>): nat {
    if workers == [] then 0 else Times(t, HeldBy(workers[0])) + TimesHeld(t, workers[1..])
  }

  /** In how many places task `t` is: delivered, being delivered, waiting for delivery, being
      worked on, queued. */
  function Sightings(p: Pipeline, t: TaskId): nat {
    Times(t, p.delivered) + Times(t, HeldByOwner(p.owner)) + Times(t, p.completions) + TimesHeld(t, p.workers) + Times(t, p.tasks)
  }

  lemma {:induction false} TimesAppend(t: TaskId, ids: seq<TaskId>, last: TaskId)
    ensures Times(t, ids + [last]) == Times(t, ids) + (if last == t then 1 else 0)
  {
    if ids == [] {
      assert ids + [last] == [last];
    } else {
      TimesAppend(t, ids[1..], last);
      assert (ids + [last])[1..] == ids[1..] + [last];
    }
  }

  lemma TimesOne(t: TaskId, id: TaskId)
    ensures Times(t, [id]) == if id == t then 1 else 0
  {
    TimesAppend(t, [], id);
    assert [] + [id] == [id];
  }

  /** Changing one worker changes what the workers hold by exactly that worker's task. */
  lemma {:induction false} HeldUpdate(t: TaskId, workers: seq<Worker>, w: nat, next: Worker)
    requires w < |workers|
    ensures TimesHeld(t, workers[w := next]) + Times(t, HeldBy(workers[w]))
         == TimesHeld(t, workers) + Times(t, HeldBy(next))
  {
    var updated := workers[w := next];
    if w == 0 {
      assert updated[1..] == workers[1..];
    } else {
      assert updated[1..] == workers[1..][w - 1 := next];
      HeldUpdate(t, workers[1..], w - 1, next);
    }
  }

  lemma {:induction false} HeldWakeAll(t: TaskId, workers: seq<Worker>)
    ensures TimesHeld(t, WakeAll(workers)) == TimesHeld(t, workers)
  {
    if workers != [] {
      HeldWakeAll(t, workers[1..]);
      assert WakeAll(workers)[1..] == WakeAll(workers[1..]);
    }
  }

  lemma {:induction false} NothingHeld(t: TaskId, workers: seq<Worker>)
    requires forall i | 0 <= i < |workers| :: !workers[i].Running?
    ensures TimesHeld(t, workers) == 0
  {
    if workers != [] {
      NothingHeld(t, workers[1..]);
    }
  }

  // ---------------------------------------------------------------- invariants

  /** Every accepted task is in exactly one place, once; no other task is anywhere. */
  ghost predicate Conserved(p: Pipeline) {
    forall t: TaskId :: Sightings(p, t) == if t < p.submitted then 1 else 0
  }

  /** With a single worker the tasks, from delivered to queued, are in submission order. */
  predicate InOrder(p: Pipeline) {
    |p.workers| == 1 ==>
      p.delivered + HeldByOwner(p.owner) + p.completions + HeldBy(p.workers[0]) + p.tasks == Numbers(p.submitted)
  }

  predicate Bounded(p: Pipeline) {
    |p.tasks| <= p.capacity
  }

  predicate Has(workers: seq<Worker>, state: Worker) {
    exists i :: 0 <= i < |workers| && workers[i] == state
  }

  predicate AllExited(workers: seq<Worker>) {
    forall i | 0 <= i < |workers| :: workers[i] == Exited
  }

  predicate Awake(worker: Worker) {
    worker.Checking? || worker.Running? || worker.Signalling?
  }

  predicate SomeoneAwake(workers: seq<Worker>) {
    exists i :: 0 <= i < |workers| && Awake(workers[i])
  }

  predicate InDrain(owner: Owner) {
    owner.Draining? || owner.InCallback? || owner.FinalDraining? || owner.InFinalCallback?
  }

  /** A waiting completion never goes unnoticed: the eventfd is readable, or a worker is on its way
      to writing it, or the owner is in the middle of a drain. */
  predicate OwnerWillNotice(p: Pipeline) {
    p.completions != [] ==>
      p.counter > 0 || Has(p.workers, Signalling) || InDrain(p.owner)
  }

  /** A queued task never goes unnoticed: the owner still owes a notification or a worker is awake. */
  predicate WorkerWillNotice(p: Pipeline) {
    p.tasks != [] ==> p.owesSignal || SomeoneAwake(p.workers)
  }

  predicate PhasesAgree(p: Pipeline) {
    && p.workers != []
    && (p.accepting <==> p.owner.Idle? || p.owner.Draining? || p.owner.InCallback?)
    && (Has(p.workers, Exited) ==> !p.accepting && p.tasks == [])
    && (!p.accepting && Has(p.workers, Waiting) ==> p.owner.Stopping?)
    && (p.owesSignal ==> MaySubmit(p.owner) && p.accepting)
    && (p.owner.FinalDraining? || p.owner.InFinalCallback? || p.owner.Stopped? ==> AllExited(p.workers))
    && (p.owner.Stopped? ==> p.completions == [])
  }

  ghost predicate Inv(p: Pipeline) {
    && Bounded(p) && PhasesAgree(p) && OwnerWillNotice(p) && WorkerWillNotice(p) && Conserved(p) && InOrder(p)
  }

  lemma StartInv(workerCount: nat, capacity: nat)
    requires workerCount > 0 && capacity > 0
    ensures Inv(Start(workerCount, capacity))
  {
    var p := Start(workerCount, capacity);
    forall t: TaskId
      ensures Sightings(p, t) == 0
    {
      NothingHeld(t, p.workers);
    }
  }

  lemma WorkerSightings(p: Pipeline, step: Step, t: TaskId)
    requires Enabled(p, step)
    requires step.NotifyOne? || step.SpuriousWakeup? || step.TakeTask? || step.PushCompletion? || step.NotifyOwner?
    ensures Sightings(Apply(p, step), t) == Sightings(p, t)
  {
    var w := step.worker;
    if w < |p.workers| {
      HeldUpdate(t, p.workers, w, Apply(p, step).workers[w]);
    }
    if step.TakeTask? && p.tasks != [] {
      TimesOne(t, p.tasks[0]);
    }
    if step.PushCompletion? {
      TimesAppend(t, p.completions, p.workers[w].task);
      TimesOne(t, p.workers[w].task);
    }
  }

  lemma OwnerSightings(p: Pipeline, step: Step, t: TaskId)
    requires Enabled(p, step)
    requires step.Submit? || step.Consume? || step.Pop? || step.FinishCallback? || step.BeginShutdown? || step.NotifyAll? || step.Join?
    ensures Sightings(Apply(p, step), t) ==
      Sightings(p, t) + (if t == p.submitted && Apply(p, step).submitted > p.submitted then 1 else 0)
  {
    if step.Submit? {
      TimesAppend(t, p.tasks, p.submitted);
    } else if step.FinishCallback? {
      TimesAppend(t, p.delivered, p.owner.task);
      TimesOne(t, p.owner.task);
    } else if step.Pop? && p.completions != [] {
      TimesOne(t, p.completions[0]);
    } else if step.NotifyAll? {
      HeldWakeAll(t, p.workers);
    }
  }

  lemma StepConserves(p: Pipeline, step: Step)
    requires Conserved(p) && Enabled(p, step)
    ensures Conserved(Apply(p, step))
  {
    forall t: TaskId
      ensures Sightings(Apply(p, step), t) == if t < Apply(p, step).submitted then 1 else 0
    {
      match step
      case NotifyOne(_) | SpuriousWakeup(_) | TakeTask(_) | PushCompletion(_) | NotifyOwner(_) => WorkerSightings(p, step, t);
      case Submit | Consume | Pop | FinishCallback | BeginShutdown | NotifyAll | Join => OwnerSightings(p, step, t);
    }
  }

  /** Moving the head of one part to the end of the part before it changes nothing. */
  lemma Regroup(a: seq<TaskId>, b: seq<TaskId>, c: seq<TaskId>)
    ensures (a + b) + c == a + (b + c)
  {}

  lemma SubmitOrder(p: Pipeline)
    requires InOrder(p) && Enabled(p, Submit)
    ensures InOrder(Apply(p, Submit))
  {
    if |p.workers| == 1 {
      Regroup(p.delivered + HeldByOwner(p.owner) + p.completions + HeldBy(p.workers[0]), p.tasks, [p.submitted]);
    }
  }

  lemma TakeTaskOrder(p: Pipeline, w: nat)
    requires InOrder(p) && Enabled(p, TakeTask(w))
    ensures InOrder(Apply(p, TakeTask(w)))
  {
    if |p.workers| == 1 && p.tasks != [] {
      var front := p.delivered + HeldByOwner(p.owner) + p.completions;
      assert p.tasks == [p.tasks[0]] + p.tasks[1..];
      assert front + [] == front;
      Regroup(front, [p.tasks[0]], p.tasks[1..]);
    }
  }

  lemma PushOrder(p: Pipeline, w: nat)
    requires InOrder(p) && Enabled(p, PushCompletion(w))
    ensures InOrder(Apply(p, PushCompletion(w)))
  {
    if |p.workers| == 1 {
      var front := p.delivered + HeldByOwner(p.owner);
      Regroup(front, p.completions, [p.workers[0].task]);
      assert front + (p.completions + [p.workers[0].task]) + [] == front + (p.completions + [p.workers[0].task]);
    }
  }

  lemma PopOrder(p: Pipeline)
    requires InOrder(p) && Enabled(p, Pop)
    ensures InOrder(Apply(p, Pop))
  {
    if |p.workers| == 1 && p.completions != [] {
      assert p.completions == [p.completions[0]] + p.completions[1..];
      assert p.delivered + [] == p.delivered;
      Regroup(p.delivered, [p.completions[0]], p.completions[1..]);
    }
  }

  lemma FinishOrder(p: Pipeline)
    requires InOrder(p) && Enabled(p, FinishCallback)
    ensures InOrder(Apply(p, FinishCallback))
  {
    var delivered := p.delivered + [p.owner.task];
    assert delivered + [] == delivered;
  }

  lemma StepKeepsOrder(p: Pipeline, step: Step)
    requires InOrder(p) && Enabled(p, step)
    ensures InOrder(Apply(p, step))
  {
    match step
    case Submit => SubmitOrder(p);
    case TakeTask(w) => TakeTaskOrder(p, w);
    case PushCompletion(w) => PushOrder(p, w);
    case Pop => PopOrder(p);
    case FinishCallback => FinishOrder(p);
    case _ =>
  }

  lemma StepKeepsPhases(p: Pipeline, step: Step)
    requires Inv(p) && Enabled(p, step)
    ensures PhasesAgree(Apply(p, step)) && Bounded(Apply(p, step))
  {}

  /** A step of one worker leaves the others as they are. */
  lemma OthersUnchanged(workers: seq<Worker>, w: nat, next: Worker, state: Worker)
    requires w < |workers|
    ensures Has(workers, state) && workers[w] != state ==> Has(workers[w := next], state)
    ensures next == state ==> Has(workers[w := next], state)
    ensures Awake(next) ==> SomeoneAwake(workers[w := next])
  {
    var updated := workers[w := next];
    assert updated[w] == next;
    if i :| 0 <= i < |workers| && workers[i] == state && i != w {
      assert updated[i] == state;
    }
  }

  lemma WakeAllKeeps(workers: seq<Worker>)
    ensures Has(workers, Signalling) ==> Has(WakeAll(workers), Signalling)
    ensures SomeoneAwake(workers) ==> SomeoneAwake(WakeAll(workers))
  {
    if i :| 0 <= i < |workers| && workers[i] == Signalling {
      assert WakeAll(workers)[i] == Signalling;
    }
    if i :| 0 <= i < |workers| && Awake(workers[i]) {
      assert Awake(WakeAll(workers)[i]);
    }
  }

  lemma StepOwnerNotices(p: Pipeline, step: Step)
    requires PhasesAgree(p) && OwnerWillNotice(p) && Enabled(p, step)
    ensures OwnerWillNotice(Apply(p, step))
  {
    match step
    case NotifyOne(w) =>
      if IsWorker(p, w, Waiting) {
        OthersUnchanged(p.workers, w, Checking, Signalling);
      }
    case SpuriousWakeup(w) => OthersUnchanged(p.workers, w, Checking, Signalling);
    case TakeTask(w) => OthersUnchanged(p.workers, w, Apply(p, step).workers[w], Signalling);
    case PushCompletion(w) => OthersUnchanged(p.workers, w, Apply(p, step).workers[w], Signalling);
    case NotifyAll => WakeAllKeeps(p.workers);
    case _ =>
  }

  lemma StepWorkerNotices(p: Pipeline, step: Step)
    requires PhasesAgree(p) && WorkerWillNotice(p) && Enabled(p, step)
    ensures WorkerWillNotice(Apply(p, step))
  {
    match step
    case NotifyOne(w) =>
      if IsWorker(p, w, Waiting) {
        OthersUnchanged(p.workers, w, Checking, Checking);
      } else {
        // nobody waits, and with a task queued nobody has exited either
        assert p.workers[0] != Waiting;
        assert p.tasks != [] ==> p.workers[0] != Exited;
        assert p.tasks != [] ==> Awake(p.workers[0]);
      }
    case SpuriousWakeup(w) => OthersUnchanged(p.workers, w, Checking, Checking);
    case TakeTask(w) => OthersUnchanged(p.workers, w, Apply(p, step).workers[w], Checking);
    case PushCompletion(w) => OthersUnchanged(p.workers, w, Apply(p, step).workers[w], Checking);
    case NotifyOwner(w) => OthersUnchanged(p.workers, w, Checking, Checking);
    case NotifyAll => WakeAllKeeps(p.workers);
    case _ =>
  }

  lemma StepKeepsInv(p: Pipeline, step: Step)
    requires Inv(p) && Enabled(p, step)
    ensures Inv(Apply(p, step))
  {
    StepConserves(p, step);
    StepKeepsOrder(p, step);
    StepKeepsPhases(p, step);
    StepOwnerNotices(p, step);
    StepWorkerNotices(p, step);
  }

  lemma {:induction false} RunKeepsInv(p: Pipeline, steps: seq<Step>)
    requires Inv(p)
    ensures Inv(Run(p, steps))
    decreases |steps|
  {
    if steps != [] {
      var before, last := Run(p, steps[..|steps| - 1]), steps[|steps| - 1];
      RunKeepsInv(p, steps[..|steps| - 1]);
      if Enabled(before, last) {
        StepKeepsInv(before, last);
      }
    }
  }

  // ---------------------------------------------------------------- what the protocol guarantees

  ghost predicate Reachable(p: Pipeline) {
    exists n: nat, capacity: nat, steps :: n > 0 && capacity > 0 && p == Run(Start(n, capacity), steps)
  }

  lemma ReachableInv(p: Pipeline)
    requires Reachable(p)
    ensures Inv(p)
  {
    var n: nat, capacity: nat, steps :| n > 0 && capacity > 0 && p == Run(Start(n, capacity), steps);
    StartInv(n, capacity);
    RunKeepsInv(Start(n, capacity), steps);
  }

  /** No thread can do anything on its own: the owner sits in epoll_wait with the eventfd
      unreadable, or has shut everything down, and every worker is blocked or gone. */
  predicate Quiescent(p: Pipeline) {
    && !p.owesSignal
    && ((p.owner.Idle? && p.counter == 0) || p.owner.Stopped?)
    && !SomeoneAwake(p.workers)
  }

  /** No lost wake-up, in either direction: whenever everybody has gone to sleep, after whatever
      interleaving, every accepted task has had its callback run exactly once and no other task has. */
  lemma SleepingMeansDelivered(p: Pipeline, t: TaskId)
    requires Reachable(p) && Quiescent(p)
    ensures Times(t, p.delivered) == if t < p.submitted then 1 else 0
    ensures p.tasks == [] && p.completions == []
  {
    ReachableInv(p);
    AtRest(p, t);
  }

  lemma AtRest(p: Pipeline, t: TaskId)
    requires Inv(p) && Quiescent(p)
    ensures Times(t, p.delivered) == if t < p.submitted then 1 else 0
    ensures p.tasks == [] && p.completions == []
  {
    assert forall i | 0 <= i < |p.workers| :: !Awake(p.workers[i]);
    NothingHeld(t, p.workers);
    assert Sightings(p, t) == Times(t, p.delivered);
  }

  /** Steps the threads take by themselves: everything but a new request, a shutdown request and
      the condition variable's spurious wake-ups. */
  predicate Internal(step: Step) {
    !step.Submit? && !step.BeginShutdown? && !step.SpuriousWakeup?
  }

  /** No deadlock: while anything is left to do, some thread can take a step. */
  lemma NeverStuck(p: Pipeline)
    requires Reachable(p) && !Quiescent(p)
    ensures exists step :: Internal(step) && Enabled(p, step)
  {
    ReachableInv(p);
    if p.owesSignal {
      var w: nat := 0;
      if i :| 0 <= i < |p.workers| && p.workers[i] == Waiting {
        w := i;
      }
      assert Internal(NotifyOne(w)) && Enabled(p, NotifyOne(w));
    } else if w: nat :| w < |p.workers| && Awake(p.workers[w]) {
      var step := match p.workers[w]
        case Checking => TakeTask(w)
        case Signalling => NotifyOwner(w)
        case _ => PushCompletion(w);
      assert Internal(step) && Enabled(p, step);
    } else {
      // every worker is blocked or gone, and once the pool is closed none is blocked
      assert forall i | 0 <= i < |p.workers| :: !Awake(p.workers[i]);
      assert p.owner.Joining? ==> AllExited(p.workers) by {
        assert forall i | 0 <= i < |p.workers| :: p.workers[i] == Waiting || p.workers[i] == Exited;
      }
      var step := match p.owner
        case Idle => Consume
        case Stopping => NotifyAll
        case Joining => Join
        case InCallback(_) => FinishCallback
        case InFinalCallback(_) => FinishCallback
        case _ => Pop;
      assert Internal(step) && Enabled(p, step);
    }
  }

  // ---------------------------------------------------------------- progress

  function Weight(worker: Worker): nat {
    match worker
    case Running(_) => 7
    case Signalling => 4
    case Checking => 1
    case _ => 0
  }

  function Weights(workers: seq<Worker>): nat {
    if workers == [] then 0 else Weight(workers[0]) + Weights(workers[1..])
  }

  /** What the owner has left to do; waking `n` workers gives each of them something to do. */
  function Phase(owner: Owner, n: nat): nat {
    match owner
    case Idle => 0
    case Draining => 1
    case InCallback(_) => 2
    case Stopping => n + 4
    case Joining => 3
    case FinalDraining => 1
    case InFinalCallback(_) => 2
    case Stopped => 0
  }

  /** How much the threads can still do by themselves. */
  function Work(p: Pipeline): nat {
    7 * |p.tasks| + Weights(p.workers) + 2 * |p.completions| + 2 * p.counter +
    Phase(p.owner, |p.workers|) + (if p.owesSignal then 2 else 0)
  }

  lemma {:induction false} WeightsUpdate(workers: seq<Worker>, w: nat, next: Worker)
    requires w < |workers|
    ensures Weights(workers[w := next]) == Weights(workers) - Weight(workers[w]) + Weight(next)
  {
    if w == 0 {
      assert workers[w := next][1..] == workers[1..];
    } else {
      assert workers[w := next][1..] == workers[1..][w - 1 := next];
      WeightsUpdate(workers[1..], w - 1, next);
    }
  }

  lemma {:induction false} WeightsWakeAll(workers: seq<Worker>)
    ensures Weights(WakeAll(workers)) <= Weights(workers) + |workers|
  {
    if workers != [] {
      WeightsWakeAll(workers[1..]);
      assert WakeAll(workers)[1..] == WakeAll(workers[1..]);
    }
  }

  lemma WorkerStepsUseUpWork(p: Pipeline, step: Step)
    requires Enabled(p, step) && (step.TakeTask? || step.PushCompletion? || step.NotifyOwner?)
    ensures Work(Apply(p, step)) < Work(p)
  {
    WeightsUpdate(p.workers, step.worker, Apply(p, step).workers[step.worker]);
  }

  lemma OwnerStepsUseUpWork(p: Pipeline, step: Step)
    requires Internal(step) && Enabled(p, step) && !step.TakeTask? && !step.PushCompletion? && !step.NotifyOwner?
    ensures Work(Apply(p, step)) < Work(p)
  {
    match step
    case NotifyOne(w) => if IsWorker(p, w, Waiting) { WeightsUpdate(p.workers, w, Checking); }
    case NotifyAll => WeightsWakeAll(p.workers);
    case _ =>
  }

  /** Every step that a thread takes by itself uses up work. */
  lemma InternalStepsUseUpWork(p: Pipeline, step: Step)
    requires Internal(step) && Enabled(p, step)
    ensures Work(Apply(p, step)) < Work(p)
  {
    if step.TakeTask? || step.PushCompletion? || step.NotifyOwner? {
      WorkerStepsUseUpWork(p, step);
    } else {
      OwnerStepsUseUpWork(p, step);
    }
  }

  /** Steps that the threads take by themselves, one enabled after another. */
  ghost predicate Unaided(p: Pipeline, steps: seq<Step>) {
    forall i | 0 <= i < |steps| :: Internal(steps[i]) && Enabled(Run(p, steps[..i]), steps[i])
  }

  lemma UnaidedFront(p: Pipeline, steps: seq<Step>)
    requires steps != [] && Unaided(p, steps)
    ensures Unaided(p, steps[..|steps| - 1])
  {
    var front := steps[..|steps| - 1];
    forall i | 0 <= i < |front|
      ensures Internal(front[i]) && Enabled(Run(p, front[..i]), front[i])
    {
      assert front[..i] == steps[..i] && front[i] == steps[i];
    }
  }

  lemma {:induction false} UnaidedRunsAreBounded(p: Pipeline, steps: seq<Step>)
    requires Unaided(p, steps)
    ensures |steps| + Work(Run(p, steps)) <= Work(p) && Run(p, steps).submitted == p.submitted
    decreases |steps|
  {
    if steps != [] {
      var front, last := steps[..|steps| - 1], steps[|steps| - 1];
      UnaidedFront(p, steps);
      UnaidedRunsAreBounded(p, front);
      InternalStepsUseUpWork(Run(p, front), last);
    }
  }

  lemma {:induction false} RunConcat(p: Pipeline, a: seq<Step>, b: seq<Step>)
    ensures Run(p, a + b) == Run(Run(p, a), b)
    decreases |b|
  {
    if b == [] {
      assert a + b == a;
    } else {
      assert (a + b)[..|a + b| - 1] == a + b[..|b| - 1];
      RunConcat(p, a, b[..|b| - 1]);
    }
  }

  lemma ReachableThrough(p: Pipeline, steps: seq<Step>)
    requires Reachable(p)
    ensures Reachable(Run(p, steps))
  {
    var n: nat, capacity: nat, before :| n > 0 && capacity > 0 && p == Run(Start(n, capacity), before);
    RunConcat(Start(n, capacity), before, steps);
  }

  /** Eventual delivery.  Left to themselves the threads stop after at most `Work` steps, whatever
      the interleaving, and where they stop every accepted task has had its callback exactly once. */
  lemma EverythingIsDelivered(p: Pipeline, steps: seq<Step>, t: TaskId)
    requires Reachable(p) && Unaided(p, steps)
    ensures |steps| <= Work(p)
    ensures var q := Run(p, steps);
      || (exists step :: Internal(step) && Enabled(q, step))
      || Times(t, q.delivered) == if t < p.submitted then 1 else 0
  {
    UnaidedRunsAreBounded(p, steps);
    var q := Run(p, steps);
    ReachableThrough(p, steps);
    if Quiescent(q) {
      SleepingMeansDelivered(q, t);
    } else {
      NeverStuck(q);
    }
  }

  /** After shutdown and the last drain nothing accepted is left behind: the system is quiescent,
      so `SleepingMeansDelivered` applies, and the workers are gone. */
  lemma ShutdownIsQuiescent(p: Pipeline)
    requires Reachable(p) && p.owner.Stopped?
    ensures Quiescent(p) && AllExited(p.workers) && !p.accepting
  {
    ReachableInv(p);
  }

  /** With one worker callbacks run in submission order. */
  lemma {:induction false} SingleWorkerIsFifo(p: Pipeline, i: nat)
    requires Reachable(p) && |p.workers| == 1 && i < |p.delivered|
    ensures p.delivered[i] == i
  {
    ReachableInv(p);
    var rest := HeldByOwner(p.owner) + p.completions + HeldBy(p.workers[0]) + p.tasks;
    assert p.delivered + rest == Numbers(p.submitted);
    assert (p.delivered + rest)[i] == p.delivered[i];
  }

  // ---------------------------------------------------------------- the two queues as objects

  /** The lock regions of the pool. */
  class BoundedThreadPool {
    const queueCapacity: nat
    var tasks: seq<TaskId>
    var acceptingTasks: bool

    constructor (queueCapacity: nat)
      requires queueCapacity > 0
      ensures tasks == [] && acceptingTasks && this.queueCapacity == queueCapacity
    {
      this.queueCapacity := queueCapacity;
      tasks, acceptingTasks := [], true;
    }

    /** Never blocks: refuses at once when full or shut down. */
    method TrySubmit(task: TaskId) returns (ok: bool)
      modifies this
      ensures (tasks, ok) == SubmitRegion(old(tasks), old(acceptingTasks), queueCapacity, task)
      ensures ok <==> acceptingTasks && old(|tasks|) < queueCapacity
      ensures tasks == if ok then old(tasks) + [task] else old(tasks)
      ensures acceptingTasks == old(acceptingTasks)
      ensures old(|tasks|) <= queueCapacity ==> |tasks| <= queueCapacity
    {
      if !acceptingTasks || |tasks| >= queueCapacity {
        return false;
      }
      tasks := tasks + [task];
      return true;
    }

    /** One pass of a worker through its lock region. */
    method TakeTask() returns (verdict: Verdict)
      modifies this
      ensures (tasks, verdict) == TakeRegion(old(tasks), old(acceptingTasks))
      ensures verdict.Take? <==> old(tasks) != []
      ensures if verdict.Take? then [verdict.task] + tasks == old(tasks) else tasks == old(tasks)
      ensures verdict.Exit? <==> tasks == [] && !verdict.Take? && !acceptingTasks
      ensures acceptingTasks == old(acceptingTasks)
    {
      if |tasks| == 0 && acceptingTasks {
        return Wait;
      }
      if |tasks| == 0 && !acceptingTasks {
        return Exit;
      }
      verdict := Take(tasks[0]);
      tasks := tasks[1..];
    }

    method StopAccepting()
      modifies `acceptingTasks
      ensures !acceptingTasks
    {
      acceptingTasks := false;
    }
  }

  class CompletionQueue {
    var completions: seq<TaskId>
    var counter: nat

    constructor ()
      ensures completions == [] && counter == 0
    {
      completions, counter := [], 0;
    }

    /** The notifier runs only on the empty to non-empty transition, after the lock is released. */
    method Push(task: TaskId)
      modifies this
      ensures completions == PushRegion(old(completions), task).0 == old(completions) + [task]
      ensures counter == old(counter) + (if PushRegion(old(completions), task).1 then 1 else 0)
      ensures counter == old(counter) + (if old(completions) == [] then 1 else 0)
      ensures counter == old(counter) + (if PushRegion(old(completions), task).1 then 1 else 0)
    {
      var shouldNotify := |completions| == 0;
      completions := completions + [task];
      if shouldNotify {
        counter := counter + 1;
      }
    }

    /** With nobody pushing meanwhile, runs the oldest completions in order, at most `maximum`. */
    method Drain(maximum: nat) returns (completed: nat, ran: seq<TaskId>)
      modifies `completions
      ensures completed == |ran| == if maximum < |old(completions)| then maximum else |old(completions)|
      ensures ran + completions == old(completions)
    {
      completed, ran := 0, [];
      while completed < maximum
        invariant completed == |ran| <= maximum
        invariant ran + completions == old(completions)
      {
        if |completions| == 0 {
          break;
        }
        ran := ran + [completions[0]];
        completions := completions[1..];
        completed := completed + 1;
      }
    }
  }
}
