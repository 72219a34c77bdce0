/** Posts and background tasks as atomic steps of submitters, workers, the tick and shutdown around one
    lock (golem/tasks.go, with the shutdown order of Run in golem/loop.go). */
module TaskPipeline {
  import opened Identifiers

  newtype TaskId = x: int | 0 <= x
  newtype PostId = x: int | 0 <= x

  datatype Life = Created | Running | Stopping | Stopped

  /** How far SubmitTask has got while it holds the lock. */
  datatype Submission = Checked | Submitted | Counted | Opened

  /** Post, the tick and shutdown hold the lock for one atomic step only. */
  datatype Lock = Free | Held(task: TaskId, at: Submission)

  /** A task in the pool: in its queue, with a worker at the start gate, in user work, returned from it,
      its completion delivered; or given up on shutdown before or after user work. */
  datatype Phase = Waiting | AtGate | Working | Returned | Delivered | Skipped | Escaped

  datatype Callback = Completion(task: TaskId) | Posted(post: PostId)

  /** The worker pool, with what is counted about it. */
  datatype Pool = Pool(tasks: map<TaskId, Phase>, gates: set<TaskId>, accepted: nat, finished: nat)

  /** A queue of callbacks for the tick. History: what was queued, what was run, and what was discarded on
      shutdown. */
  datatype Queue<T> = Queue(waiting: seq<T>, accepted: nat, executed: nat, queued: seq<T>, ran: seq<T>, dropped: seq<T>)

  /** hand: what the tick took and has not run yet. */
  datatype State = State(life: Life, lock: Lock, cancelled: bool, poolDone: bool, pool: Pool,
                         completions: Queue<TaskId>, posts: Queue<PostId>, hand: seq<Callback>)

  const START := State(Created, Free, false, false, Pool(map[], {}, 0, 0),
                       Queue([], 0, 0, [], [], []), Queue([], 0, 0, [], [], []), [])

  // ---- steps ----

  datatype Step =
    | Start(callerDone: bool)
    | Post(post: PostId, capacity: nat)
    | BeginSubmit(task: TaskId)
    | TrySubmit(ok: bool)
    | CountAccepted
    | OpenGate
    | Unlock
    | Pick(task: TaskId)
    | Enter(task: TaskId)
    | Return(task: TaskId)
    | Deliver(task: TaskId, capacity: nat)
    | Escape(task: TaskId)
    | Skip(task: TaskId)
    | TakeCompletion
    | TakePost
    | RunCallback
    | MarkStopping
    | Cancel
    | PoolStops
    | Finalize

  predicate InPool(p: Phase) { p.Waiting? || p.AtGate? || p.Working? || p.Returned? }

  predicate HasReturned(p: Phase) { p.Returned? || p.Delivered? || p.Escaped? }

  predicate In(s: State, task: TaskId, p: Phase) { task in s.pool.tasks && s.pool.tasks[task] == p }

  /** No task is left in the pool. */
  predicate PoolIdle(s: State)
  {
    forall t :: t in s.pool.tasks ==> !InPool(s.pool.tasks[t])
  }

  predicate Enabled(s: State, step: Step)
  {
    match step
    case Start(_) => s.lock.Free? && s.life.Created?
    case Post(_, _) => s.lock.Free?
    case BeginSubmit(task) => s.lock.Free? && s.life.Running? && task !in s.pool.tasks
    case TrySubmit(_) => s.lock.Held? && s.lock.at.Checked?
    case CountAccepted => s.lock.Held? && s.lock.at.Submitted?
    case OpenGate => s.lock.Held? && s.lock.at.Counted?
    case Unlock => s.lock.Held? && s.lock.at.Opened?
    case Pick(task) => In(s, task, Waiting)
    case Enter(task) => In(s, task, AtGate) && task in s.pool.gates
    case Return(task) => In(s, task, Working)
    case Deliver(task, capacity) => In(s, task, Returned) && |s.completions.waiting| < capacity
    case Escape(task) => In(s, task, Returned) && s.cancelled
    case Skip(task) => In(s, task, Waiting) && s.cancelled
    case TakeCompletion => s.lock.Free? && s.life.Running? && s.hand == [] && s.completions.waiting != []
    case TakePost => s.lock.Free? && s.life.Running? && s.hand == [] && s.posts.waiting != []
    case RunCallback => s.hand != []
    case MarkStopping => s.lock.Free? && s.life.Running?
    case Cancel => s.life.Stopping?
    case PoolStops => s.cancelled && PoolIdle(s)
    case Finalize => s.lock.Free? && s.life.Stopping? && s.poolDone && s.hand == []
  }

  function At(s: State, task: TaskId, p: Phase): State { s.(pool := s.pool.(tasks := s.pool.tasks[task := p])) }

  function Enqueue<T>(q: Queue<T>, x: T): Queue<T>
  {
    q.(waiting := q.waiting + [x], accepted := q.accepted + 1, queued := q.queued + [x])
  }

  function Ran<T>(q: Queue<T>, x: T): Queue<T> { q.(executed := q.executed + 1, ran := q.ran + [x]) }

  function Discard<T>(q: Queue<T>): Queue<T> { q.(waiting := [], dropped := q.waiting) }

  function Do(s: State, step: Step): State
    requires Enabled(s, step)
  {
    match step
    case Start(callerDone) => s.(life := if callerDone then Stopping else Running)
    case Post(post, capacity) =>
      if !s.life.Running? || |s.posts.waiting| >= capacity then s else s.(posts := Enqueue(s.posts, post))
    case BeginSubmit(task) => s.(lock := Held(task, Checked))
    case TrySubmit(ok) =>
      if ok then At(s, s.lock.task, Waiting).(lock := Held(s.lock.task, Submitted)) else s.(lock := Free)
    case CountAccepted => s.(pool := s.pool.(accepted := s.pool.accepted + 1), lock := Held(s.lock.task, Counted))
    case OpenGate => s.(pool := s.pool.(gates := s.pool.gates + {s.lock.task}), lock := Held(s.lock.task, Opened))
    case Unlock => s.(lock := Free)
    case Pick(task) => At(s, task, AtGate)
    case Enter(task) => At(s, task, Working)
    case Return(task) =>
      s.(pool := s.pool.(tasks := s.pool.tasks[task := Returned], finished := s.pool.finished + 1))
    case Deliver(task, _) => At(s, task, Delivered).(completions := Enqueue(s.completions, task))
    case Escape(task) => At(s, task, Escaped)
    case Skip(task) => At(s, task, Skipped)
    case TakeCompletion =>
      s.(hand := [Completion(s.completions.waiting[0])],
         completions := s.completions.(waiting := s.completions.waiting[1..]))
    case TakePost =>
      s.(hand := [Posted(s.posts.waiting[0])], posts := s.posts.(waiting := s.posts.waiting[1..]))
    case RunCallback =>
      (match s.hand[0]
       case Completion(t) => s.(hand := [], completions := Ran(s.completions, t))
       case Posted(p) => s.(hand := [], posts := Ran(s.posts, p)))
    case MarkStopping => s.(life := Stopping)
    case Cancel => s.(cancelled := true)
    case PoolStops => s.(poolDone := true)
    case Finalize => s.(life := Stopped, posts := Discard(s.posts), completions := Discard(s.completions))
  }

  // ---- the invariant ----

  /** Tasks whose acceptance has been counted. */
  ghost function Accepted(pool: Pool, lock: Lock): set<TaskId>
  {
    set t | t in pool.tasks && lock != Held(t, Submitted)
  }

  ghost function Finished(pool: Pool): set<TaskId>
  {
    set t | t in pool.tasks && HasReturned(pool.tasks[t])
  }

  ghost function HandTask(hand: seq<Callback>): seq<TaskId>
  {
    if hand != [] && hand[0].Completion? then [hand[0].task] else []
  }

  ghost function HandPost(hand: seq<Callback>): seq<PostId>
  {
    if hand != [] && hand[0].Posted? then [hand[0].post] else []
  }

  /** The lock is held only while running, and only by a submission; and a task whose gate is closed is the
      one whose submitter holds the lock. */
  ghost predicate GatesOk(s: State)
  {
    && (s.lock.Held? ==> s.life.Running? && (s.lock.task in s.pool.tasks <==> !s.lock.at.Checked?))
    && (s.lock.Held? ==> (s.lock.task in s.pool.gates <==> s.lock.at.Opened?))
    && (forall t :: t in s.pool.tasks && t !in s.pool.gates ==> s.lock.Held? && s.lock.task == t)
    && (forall t :: t in s.pool.tasks && t !in s.pool.gates ==> s.pool.tasks[t].Waiting? || s.pool.tasks[t].AtGate?)
    && (forall t :: t in s.pool.gates ==> t in s.pool.tasks)
    && (s.cancelled ==> ShuttingDown(s))
  }

  predicate ShuttingDown(s: State) { s.life.Stopping? || s.life.Stopped? }

  /** The pool's counters count. */
  ghost predicate CountsOk(pool: Pool, lock: Lock)
  {
    pool.accepted == |Accepted(pool, lock)| && pool.finished == |Finished(pool)|
  }

  /** Callbacks are run in the order they were queued, once, and what was queued is run, in hand, still
      waiting, or discarded at the very end. */
  ghost predicate FlowOk<T>(q: Queue<T>, hand: seq<T>)
  {
    && q.queued == q.ran + (hand + q.waiting) + q.dropped
    && q.accepted == |q.queued| && q.executed == |q.ran|
  }

  ghost predicate LifeOk(s: State)
  {
    && |s.hand| <= 1
    && (!s.life.Stopped? ==> s.posts.dropped == [] && s.completions.dropped == [])
    && (s.life.Stopped? ==> s.hand == [] && s.posts.waiting == [] && s.completions.waiting == [] && s.poolDone)
    && (s.poolDone ==> PoolIdle(s) && ShuttingDown(s) && s.cancelled)
  }

  /** Each delivered completion is of a task of its own. */
  ghost predicate DeliveriesOk(delivered: seq<TaskId>, tasks: map<TaskId, Phase>)
  {
    && (forall t :: t in delivered <==> t in tasks && tasks[t].Delivered?)
    && NoDup(delivered)
  }

  ghost predicate Inv(s: State)
  {
    && GatesOk(s) && CountsOk(s.pool, s.lock) && LifeOk(s)
    && FlowOk(s.posts, HandPost(s.hand)) && FlowOk(s.completions, HandTask(s.hand))
    && DeliveriesOk(s.completions.queued, s.pool.tasks)
  }

  /** The steps of a submitter that holds, takes or gives back the lock. */
  predicate OfLock(step: Step)
  {
    step.BeginSubmit? || step.TrySubmit? || step.CountAccepted? || step.OpenGate? || step.Unlock?
  }

  /** The steps of the workers. */
  predicate OfPool(step: Step)
  {
    step.Pick? || step.Enter? || step.Return? || step.Deliver? || step.Escape? || step.Skip?
  }

  lemma LockStepKeepsGates(s: State, step: Step)
    requires GatesOk(s) && Enabled(s, step) && OfLock(step)
    ensures GatesOk(Do(s, step))
  {
  }

  lemma PoolStepKeepsGates(s: State, step: Step)
    requires GatesOk(s) && Enabled(s, step) && OfPool(step)
    ensures GatesOk(Do(s, step))
  {
  }

  lemma OtherStepKeepsGates(s: State, step: Step)
    requires GatesOk(s) && Enabled(s, step) && !OfLock(step) && !OfPool(step)
    ensures GatesOk(Do(s, step))
  {
    assert Do(s, step).pool == s.pool;
  }

  lemma StepKeepsGates(s: State, step: Step)
    requires GatesOk(s) && Enabled(s, step)
    ensures GatesOk(Do(s, step))
  {
    if OfLock(step) {
      LockStepKeepsGates(s, step);
    } else if OfPool(step) {
      PoolStepKeepsGates(s, step);
    } else {
      OtherStepKeepsGates(s, step);
    }
  }

  lemma LockStepKeepsLife(s: State, step: Step)
    requires GatesOk(s) && LifeOk(s) && Enabled(s, step) && OfLock(step)
    ensures LifeOk(Do(s, step))
  {
  }

  lemma PoolStepKeepsLife(s: State, step: Step)
    requires GatesOk(s) && LifeOk(s) && Enabled(s, step) && OfPool(step)
    ensures LifeOk(Do(s, step))
  {
  }

  lemma OtherStepKeepsLife(s: State, step: Step)
    requires GatesOk(s) && LifeOk(s) && Enabled(s, step) && !OfLock(step) && !OfPool(step)
    ensures LifeOk(Do(s, step))
  {
    assert Do(s, step).pool == s.pool;
  }

  lemma StepKeepsLife(s: State, step: Step)
    requires GatesOk(s) && LifeOk(s) && Enabled(s, step)
    ensures LifeOk(Do(s, step))
  {
    if OfLock(step) {
      LockStepKeepsLife(s, step);
    } else if OfPool(step) {
      PoolStepKeepsLife(s, step);
    } else {
      OtherStepKeepsLife(s, step);
    }
  }

  lemma EnqueueKeepsFlow<T>(q: Queue<T>, hand: seq<T>, x: T)
    requires FlowOk(q, hand) && q.dropped == []
    ensures FlowOk(Enqueue(q, x), hand)
  {
    assert hand + (q.waiting + [x]) == hand + q.waiting + [x];
  }

  lemma TakeKeepsFlow<T>(q: Queue<T>)
    requires FlowOk(q, []) && q.waiting != []
    ensures FlowOk(q.(waiting := q.waiting[1..]), [q.waiting[0]])
  {
    assert [] + q.waiting == [q.waiting[0]] + q.waiting[1..];
  }

  lemma RunKeepsFlow<T>(q: Queue<T>, x: T)
    requires FlowOk(q, [x])
    ensures FlowOk(Ran(q, x), [])
  {
    assert q.ran + ([x] + q.waiting) == q.ran + [x] + ([] + q.waiting);
  }

  lemma DiscardKeepsFlow<T>(q: Queue<T>)
    requires FlowOk(q, []) && q.dropped == []
    ensures FlowOk(Discard(q), [])
  {
    assert q.ran + ([] + q.waiting) + [] == q.ran + ([] + []) + q.waiting;
  }

  lemma StepKeepsFlow(s: State, step: Step)
    requires FlowOk(s.posts, HandPost(s.hand)) && FlowOk(s.completions, HandTask(s.hand)) && LifeOk(s) && Enabled(s, step)
    ensures var s' := Do(s, step); FlowOk(s'.posts, HandPost(s'.hand)) && FlowOk(s'.completions, HandTask(s'.hand))
  {
    match step {
      case Post(post, _) => if s.life.Running? { EnqueueKeepsFlow(s.posts, HandPost(s.hand), post); }
      case Deliver(task, _) => EnqueueKeepsFlow(s.completions, HandTask(s.hand), task);
      case TakePost => TakeKeepsFlow(s.posts);
      case TakeCompletion => TakeKeepsFlow(s.completions);
      case RunCallback =>
        match s.hand[0] {
          case Posted(p) => RunKeepsFlow(s.posts, p);
          case Completion(t) => RunKeepsFlow(s.completions, t);
        }
      case Finalize => DiscardKeepsFlow(s.posts); DiscardKeepsFlow(s.completions);
      case _ =>
    }
  }

  lemma StepKeepsDeliveries(s: State, step: Step)
    requires GatesOk(s) && DeliveriesOk(s.completions.queued, s.pool.tasks) && Enabled(s, step)
    ensures var s' := Do(s, step); DeliveriesOk(s'.completions.queued, s'.pool.tasks)
  {
    if step.Deliver? {
      DeliverOnce(s.completions.queued, s.pool.tasks, step.task);
    }
  }

  lemma DeliverOnce(delivered: seq<TaskId>, tasks: map<TaskId, Phase>, task: TaskId)
    requires DeliveriesOk(delivered, tasks) && task in tasks && tasks[task].Returned?
    ensures DeliveriesOk(delivered + [task], tasks[task := Delivered])
  {
    assert task !in delivered;
  }

  lemma StepKeepsCounts(s: State, step: Step)
    requires GatesOk(s) && CountsOk(s.pool, s.lock) && Enabled(s, step)
    ensures var s' := Do(s, step); CountsOk(s'.pool, s'.lock)
  {
    AcceptedAfter(s, step);
    FinishedAfter(s, step);
  }

  lemma AcceptedAfter(s: State, step: Step)
    requires GatesOk(s) && Enabled(s, step)
    ensures var s' := Do(s, step);
            if step.CountAccepted?
            then Accepted(s'.pool, s'.lock) == Accepted(s.pool, s.lock) + {s.lock.task} && s.lock.task !in Accepted(s.pool, s.lock)
            else Accepted(s'.pool, s'.lock) == Accepted(s.pool, s.lock)
  {
    var s' := Do(s, step);
    assert forall t :: t in Accepted(s'.pool, s'.lock) <==> t in Accepted(s.pool, s.lock) || (step.CountAccepted? && t == s.lock.task);
  }

  lemma FinishedAfter(s: State, step: Step)
    requires GatesOk(s) && Enabled(s, step)
    ensures var s' := Do(s, step);
            if step.Return? then Finished(s'.pool) == Finished(s.pool) + {step.task} && step.task !in Finished(s.pool)
            else Finished(s'.pool) == Finished(s.pool)
  {
    var s' := Do(s, step);
    assert forall t :: t in Finished(s'.pool) <==> t in Finished(s.pool) || (step.Return? && t == step.task);
  }

  lemma StepKeeps(s: State, step: Step)
    requires Inv(s) && Enabled(s, step)
    ensures Inv(Do(s, step))
  {
    StepKeepsGates(s, step);
    StepKeepsLife(s, step);
    StepKeepsFlow(s, step);
    StepKeepsDeliveries(s, step);
    StepKeepsCounts(s, step);
  }

  // ---- runs ----

  ghost predicate Possible(s: State, steps: seq<Step>)
    decreases |steps|
  {
    steps == [] || (Enabled(s, steps[0]) && Possible(Do(s, steps[0]), steps[1..]))
  }

  function Run(s: State, steps: seq<Step>): State
    requires Possible(s, steps)
    decreases |steps|
  {
    if steps == [] then s else Run(Do(s, steps[0]), steps[1..])
  }

  lemma {:induction false} RunKeeps(s: State, steps: seq<Step>)
    requires Inv(s) && Possible(s, steps)
    ensures Inv(Run(s, steps))
    decreases |steps|
  {
    if steps != [] {
      StepKeeps(s, steps[0]);
      RunKeeps(Do(s, steps[0]), steps[1..]);
    }
  }

  lemma StartIsInv()
    ensures Inv(START)
  {
    assert Accepted(START.pool, START.lock) == {} && Finished(START.pool) == {};
  }

  /** In every interleaving: no more completions run than tasks finished, no more finished than accepted;
      completions run in the order delivered, each of a different accepted task; and accepted posts are
      run in order, in hand (at most one), queued, or discarded on shutdown. */
  lemma PipelineIsSafe(steps: seq<Step>)
    requires Possible(START, steps)
    ensures var s := Run(START, steps);
            && s.completions.executed <= s.pool.finished <= s.pool.accepted
            && s.completions.ran <= s.completions.queued && (forall t :: t in s.completions.ran ==> In(s, t, Delivered))
            && s.posts.accepted == s.posts.executed + |s.posts.waiting| + |s.posts.dropped| + |HandPost(s.hand)|
            && s.posts.ran <= s.posts.queued
            && (s.life.Stopped? ==> s.posts.queued == s.posts.ran + s.posts.dropped && s.completions.queued == s.completions.ran + s.completions.dropped)
  {
    StartIsInv();
    RunKeeps(START, steps);
    var s := Run(START, steps);
    FinishedIsAccepted(s);
    CompletedIsFinished(s);
    assert s.completions.ran == s.completions.queued[..|s.completions.ran|];
    assert s.posts.ran == s.posts.queued[..|s.posts.ran|];
    assert forall t :: t in s.completions.ran ==> t in s.completions.queued;
  }

  lemma FinishedIsAccepted(s: State)
    requires Inv(s)
    ensures s.pool.finished <= s.pool.accepted
  {
    assert forall t :: t in Finished(s.pool) ==> t in s.pool.gates;
    assert Finished(s.pool) <= Accepted(s.pool, s.lock);
    SubsetSize(Finished(s.pool), Accepted(s.pool, s.lock));
  }

  lemma CompletedIsFinished(s: State)
    requires Inv(s)
    ensures s.completions.executed <= s.pool.finished
  {
    NoDupSize(s.completions.queued);
    assert ToSet(s.completions.queued) <= Finished(s.pool);
    SubsetSize(ToSet(s.completions.queued), Finished(s.pool));
  }

  /** Once stopping, always stopping, and nothing more is accepted. */
  lemma {:induction false} NothingIsAcceptedOnceStopping(s: State, steps: seq<Step>)
    requires Inv(s) && Possible(s, steps) && ShuttingDown(s)
    ensures var s' := Run(s, steps); ShuttingDown(s') && s'.pool.accepted == s.pool.accepted && s'.posts.queued == s.posts.queued
    decreases |steps|
  {
    if steps != [] {
      StepKeeps(s, steps[0]);
      NothingIsAcceptedOnceStopping(Do(s, steps[0]), steps[1..]);
    }
  }

  /** Once stopped, no callback runs any more. */
  lemma {:induction false} NothingRunsOnceStopped(s: State, steps: seq<Step>)
    requires Inv(s) && Possible(s, steps) && s.life.Stopped?
    ensures var s' := Run(s, steps); s'.life.Stopped? && s'.posts.ran == s.posts.ran && s'.completions.ran == s.completions.ran
    decreases |steps|
  {
    if steps != [] {
      StepKeeps(s, steps[0]);
      NothingRunsOnceStopped(Do(s, steps[0]), steps[1..]);
    }
  }

  /** A worker waiting at a closed gate has its submitter holding the lock; so, since shutdown takes the
      lock first, no worker waits at a gate while the pool is being stopped. */
  lemma GateWaiterHasSubmitter(steps: seq<Step>, task: TaskId)
    requires Possible(START, steps)
    requires In(Run(START, steps), task, AtGate) && task !in Run(START, steps).pool.gates
    ensures var s := Run(START, steps); s.lock.Held? && s.lock.task == task && !ShuttingDown(s)
    ensures var s := Run(START, steps); Enabled(s, CountAccepted) || Enabled(s, OpenGate)
  {
    StartIsInv();
    RunKeeps(START, steps);
  }

  /** The step by which a task in the pool moves on during shutdown. */
  function Next(p: Phase, task: TaskId): Step
    requires InPool(p)
  {
    match p
    case Waiting => Skip(task)
    case AtGate => Enter(task)
    case Working => Return(task)
    case Returned => Escape(task)
  }

  /** With the run cancelled, no task in the pool is stuck: waiting for the pool ends once user work returns. */
  lemma ShutdownIsNotStuck(s: State, task: TaskId)
    requires Inv(s) && s.cancelled && task in s.pool.tasks && InPool(s.pool.tasks[task])
    ensures Enabled(s, Next(s.pool.tasks[task], task))
    ensures !s.poolDone
  {
  }

  /** How far the pool is from being idle. */
  function Rank(p: Phase): nat
  {
    match p
    case AtGate => 3
    case Working => 2
    case Waiting => 1
    case Returned => 1
    case _ => 0
  }

  /** From any cancelled state the pool comes to rest, and then it stops. */
  lemma {:induction false} PoolComesToRest(s: State, left: set<TaskId>) returns (steps: seq<Step>)
    requires Inv(s) && s.cancelled
    requires forall t :: t in s.pool.tasks && InPool(s.pool.tasks[t]) ==> t in left
    ensures Possible(s, steps) && Enabled(Run(s, steps), PoolStops)
    decreases left
  {
    if left == {} {
      steps := [];
    } else {
      var t :| t in left;
      var first, s1 := TaskComesToRest(s, t);
      var rest := PoolComesToRest(s1, left - {t});
      RunAppend(s, first, rest);
      steps := first + rest;
    }
  }

  /** One task's way out of the pool; the others stay where they are. */
  lemma {:induction false} TaskComesToRest(s: State, task: TaskId) returns (steps: seq<Step>, s': State)
    requires Inv(s) && s.cancelled
    ensures Possible(s, steps) && s' == Run(s, steps) && Inv(s') && s'.cancelled
    ensures Moved(s, s', task) && (task in s'.pool.tasks ==> !InPool(s'.pool.tasks[task]))
    decreases if task in s.pool.tasks then Rank(s.pool.tasks[task]) else 0
  {
    if task in s.pool.tasks && InPool(s.pool.tasks[task]) {
      var step := OneStepOut(s, task);
      var rest;
      rest, s' := TaskComesToRest(Do(s, step), task);
      steps := [step] + rest;
      assert steps[1..] == rest;
    } else {
      steps, s' := [], s;
    }
  }

  /** No task but this one changed its phase. */
  ghost predicate Moved(s: State, s': State, task: TaskId)
  {
    s'.pool.tasks.Keys == s.pool.tasks.Keys &&
    forall t :: t in s.pool.tasks && t != task ==> s'.pool.tasks[t] == s.pool.tasks[t]
  }

  lemma OneStepOut(s: State, task: TaskId) returns (step: Step)
    requires Inv(s) && s.cancelled && task in s.pool.tasks && InPool(s.pool.tasks[task])
    ensures Enabled(s, step) && Inv(Do(s, step)) && Do(s, step).cancelled && Moved(s, Do(s, step), task)
    ensures Rank(Do(s, step).pool.tasks[task]) < Rank(s.pool.tasks[task])
  {
    ShutdownIsNotStuck(s, task);
    step := Next(s.pool.tasks[task], task);
    StepKeeps(s, step);
  }

  lemma {:induction false} RunAppend(s: State, a: seq<Step>, b: seq<Step>)
    requires Possible(s, a) && Possible(Run(s, a), b)
    ensures Possible(s, a + b) && Run(s, a + b) == Run(Run(s, a), b)
    decreases |a|
  {
    if a == [] {
      assert a + b == b;
    } else {
      RunAppend(Do(s, a[0]), a[1..], b);
      assert (a + b)[1..] == a[1..] + b;
    }
  }
}
