/** The bounded, fair drain of task completions and posts on the tick (golem/tasks.go). */
module TaskDrain {
  import opened TaskPipeline

  datatype Kind = OfTask | OfPost

  /** One callback run by a drain: which kind was preferred, which kinds were eligible, and which it was. */
  datatype Turn = Turn(preferred: Kind, tasks: bool, posts: bool, callback: Callback)

  function Other(k: Kind): Kind { if k.OfTask? then OfPost else OfTask }

  function KindOf(c: Callback): Kind { if c.Completion? then OfTask else OfPost }

  predicate Eligible(t: Turn, k: Kind) { if k.OfTask? then t.tasks else t.posts }

  /** The preferred kind is taken if it is eligible, otherwise the other one. */
  ghost predicate Fits(t: Turn)
  {
    Eligible(t, KindOf(t.callback)) && (Eligible(t, t.preferred) ==> KindOf(t.callback) == t.preferred)
  }

  /** The preference changes hands on every callback. */
  ghost predicate Alternates(log: seq<Turn>, first: Kind)
  {
    forall i :: 0 <= i < |log| ==> log[i].preferred == PreferredAfter(first, i) && Fits(log[i])
  }

  function PreferredAfter(first: Kind, n: nat): Kind { if n % 2 == 0 then first else Other(first) }

  function TasksIn(log: seq<Turn>): seq<TaskId>
  {
    if log == [] then []
    else
      var c := log[|log| - 1].callback;
      TasksIn(log[..|log| - 1]) + if c.Completion? then [c.task] else []
  }

  function PostsIn(log: seq<Turn>): seq<PostId>
  {
    if log == [] then []
    else
      var c := log[|log| - 1].callback;
      PostsIn(log[..|log| - 1]) + if c.Posted? then [c.post] else []
  }

  lemma LogOneMore(log: seq<Turn>, t: Turn)
    ensures TasksIn(log + [t]) == TasksIn(log) + if t.callback.Completion? then [t.callback.task] else []
    ensures PostsIn(log + [t]) == PostsIn(log) + if t.callback.Posted? then [t.callback.post] else []
  {
    assert (log + [t])[..|log|] == log;
  }

  /** What other goroutines, or the callback itself, queue while the n-th callback runs; and whether the
      server has begun to stop by then. */
  datatype Meanwhile = Meanwhile(tasks: seq<TaskId>, posts: seq<PostId>, stopping: bool)

  /** A queue from whose front `taken` was taken, and at whose back `arrived` arrived. */
  ghost predicate Drained<T>(queue: seq<T>, taken: seq<T>, arrived: seq<T>, queue': seq<T>)
  {
    taken <= queue && queue' == queue[|taken|..] + arrived
  }

  lemma TakeKeepsDrained<T>(queue: seq<T>, taken: seq<T>, arrived: seq<T>, before: seq<T>, after: seq<T>, x: T)
    requires Drained(queue, taken, arrived, before) && |taken| < |queue| && before == [x] + after
    ensures Drained(queue, taken + [x], arrived, after)
  {
    assert before[0] == queue[|taken|];
    assert after == before[1..] == queue[|taken| + 1..] + arrived;
  }

  lemma ArriveKeepsDrained<T>(queue: seq<T>, taken: seq<T>, arrived: seq<T>, after: seq<T>, more: seq<T>)
    requires Drained(queue, taken, arrived, after)
    ensures Drained(queue, taken, arrived + more, after + more)
  {
  }

  /** Where a drain stands that began with queues c0 and p0 and the preference `first`. */
  ghost predicate Halfway(log: seq<Turn>, first: Kind, c0: seq<TaskId>, p0: seq<PostId>, remainC: nat, remainP: nat,
                          arrivedC: seq<TaskId>, arrivedP: seq<PostId>, c: seq<TaskId>, p: seq<PostId>)
  {
    && Alternates(log, first) && |log| == |TasksIn(log)| + |PostsIn(log)|
    && remainC == |c0| - |TasksIn(log)| && remainP == |p0| - |PostsIn(log)|
    && Drained(c0, TasksIn(log), arrivedC, c) && Drained(p0, PostsIn(log), arrivedP, p)
  }

  lemma TurnKeeps(log: seq<Turn>, turn: Turn, first: Kind, c0: seq<TaskId>, p0: seq<PostId>, remainC: nat, remainP: nat,
                  arrivedC: seq<TaskId>, arrivedP: seq<PostId>, c: seq<TaskId>, p: seq<PostId>,
                  c1: seq<TaskId>, p1: seq<PostId>, m: Meanwhile)
    requires Halfway(log, first, c0, p0, remainC, remainP, arrivedC, arrivedP, c, p)
    requires Fits(turn) && turn.preferred == PreferredAfter(first, |log|)
    requires turn.tasks == (remainC > 0) && turn.posts == (remainP > 0)
    requires turn.callback.Completion? ==> c == [turn.callback.task] + c1 && p1 == p
    requires turn.callback.Posted? ==> p == [turn.callback.post] + p1 && c1 == c
    ensures var (rC, rP) := if turn.callback.Completion? then (remainC - 1, remainP) else (remainC, remainP - 1);
            rC >= 0 && rP >= 0 &&
            Halfway(log + [turn], first, c0, p0, rC, rP, arrivedC + m.tasks, arrivedP + m.posts, c1 + m.tasks, p1 + m.posts)
  {
    LogOneMore(log, turn);
    if turn.callback.Completion? {
      TakeKeepsDrained(c0, TasksIn(log), arrivedC, c, c1, turn.callback.task);
    } else {
      TakeKeepsDrained(p0, PostsIn(log), arrivedP, p, p1, turn.callback.post);
    }
    ArriveKeepsDrained(c0, TasksIn(log + [turn]), arrivedC, c1, m.tasks);
    ArriveKeepsDrained(p0, PostsIn(log + [turn]), arrivedP, p1, m.posts);
  }

  // ---- fairness ----

  /** Of two consecutive callbacks at which a kind was eligible both times, one is of that kind. */
  ghost predicate Fair(log: seq<Turn>)
  {
    forall i, j, k :: 0 <= i < j < |log| && j == i + 1 && Eligible(log[i], k) && Eligible(log[j], k) ==>
      KindOf(log[i].callback) == k || KindOf(log[j].callback) == k
  }

  lemma AlternatingIsFair(log: seq<Turn>, first: Kind)
    requires Alternates(log, first)
    ensures Fair(log)
  {
    forall i, j, k | 0 <= i < j < |log| && j == i + 1 && Eligible(log[i], k) && Eligible(log[j], k)
      ensures KindOf(log[i].callback) == k || KindOf(log[j].callback) == k
    {
      assert log[j].preferred == Other(log[i].preferred);
    }
  }

  /** The logs of successive drains, each starting with the preference the last one left. */
  ghost predicate Drains(logs: seq<seq<Turn>>, first: Kind)
    decreases |logs|
  {
    logs == [] || (Alternates(logs[0], first) && Drains(logs[1..], PreferredAfter(first, |logs[0]|)))
  }

  function Joined(logs: seq<seq<Turn>>): seq<Turn> { if logs == [] then [] else logs[0] + Joined(logs[1..]) }

  lemma {:induction false} DrainsAlternate(logs: seq<seq<Turn>>, first: Kind)
    requires Drains(logs, first)
    ensures Alternates(Joined(logs), first)
    decreases |logs|
  {
    if logs != [] {
      DrainsAlternate(logs[1..], PreferredAfter(first, |logs[0]|));
    }
  }

  /** Fairness holds across ticks too. */
  lemma FairAcrossTicks(logs: seq<seq<Turn>>, first: Kind)
    requires Drains(logs, first)
    ensures Fair(Joined(logs))
  {
    DrainsAlternate(logs, first);
    AlternatingIsFair(Joined(logs), first);
  }

  class Callbacks {
    var completionQueue: seq<TaskId>
    var postQueue: seq<PostId>
    var running: bool
    var asyncPreferCompletion: bool

    constructor ()
      ensures completionQueue == [] && postQueue == [] && !running && Preference() == OfTask
    {
      completionQueue, postQueue, running, asyncPreferCompletion := [], [], false, true;
    }

    function Preference(): Kind
      reads this
    {
      if asyncPreferCompletion then OfTask else OfPost
    }

    /** drainAsyncCallbacks: exactly min(budget, what was queued at the start) callbacks run, or fewer if the server
        begins to stop, and then none after the one during which it does; each queue in order and from what was
        queued at the start; and the preference alternates from the one left by the last drain. */
    method Drain(budget: nat, meanwhile: nat -> Meanwhile) returns (log: seq<Turn>)
      modifies this
      ensures Alternates(log, old(Preference())) && Preference() == PreferredAfter(old(Preference()), |log|)
      ensures |log| == |TasksIn(log)| + |PostsIn(log)| <= budget
      ensures running ==> |log| == Min(budget, |old(completionQueue)| + |old(postQueue)|)
      ensures running <==> old(running) && forall i :: 0 <= i < |log| ==> !meanwhile(i).stopping
      ensures log != [] ==> old(running) && forall i :: 0 <= i < |log| - 1 ==> !meanwhile(i).stopping
      ensures Drained(old(completionQueue), TasksIn(log), ArrivedTasks(meanwhile, |log|), completionQueue)
      ensures Drained(old(postQueue), PostsIn(log), ArrivedPosts(meanwhile, |log|), postQueue)
    {
      log := [];
      if !running {
        return;
      }
      var remainC: nat, remainP: nat := |completionQueue|, |postQueue|;
      var n := remainC + remainP;
      if n > budget {
        n := budget;
      }
      for i := 0 to n
        invariant |log| == i && i + remainC + remainP == |old(completionQueue)| + |old(postQueue)|
        invariant Ongoing(log, old(Preference()), old(completionQueue), old(postQueue), meanwhile, remainC, remainP)
        invariant old(running) && (running <==> forall j :: 0 <= j < |log| ==> !meanwhile(j).stopping)
        invariant forall j :: 0 <= j < |log| - 1 ==> !meanwhile(j).stopping
      {
        if !running {
          return;
        }
        log, remainC, remainP := Round(log, remainC, remainP, meanwhile, old(Preference()), old(completionQueue), old(postQueue));
      }
    }

    ghost predicate Ongoing(log: seq<Turn>, first: Kind, c0: seq<TaskId>, p0: seq<PostId>, meanwhile: nat -> Meanwhile,
                            remainC: nat, remainP: nat)
      reads this
    {
      && Preference() == PreferredAfter(first, |log|)
      && Halfway(log, first, c0, p0, remainC, remainP, ArrivedTasks(meanwhile, |log|), ArrivedPosts(meanwhile, |log|),
                 completionQueue, postQueue)
    }

    /** One turn of the drain loop. */
    method Round(log: seq<Turn>, remainC: nat, remainP: nat, meanwhile: nat -> Meanwhile,
                 ghost first: Kind, ghost c0: seq<TaskId>, ghost p0: seq<PostId>)
      returns (log': seq<Turn>, remainC': nat, remainP': nat)
      requires Ongoing(log, first, c0, p0, meanwhile, remainC, remainP) && remainC + remainP > 0
      modifies this
      ensures Ongoing(log', first, c0, p0, meanwhile, remainC', remainP')
      ensures |log'| == |log| + 1 && remainC' + remainP' == remainC + remainP - 1
      ensures running <==> old(running) && !meanwhile(|log|).stopping
    {
      ghost var c, p := completionQueue, postQueue;
      var turn := TakeTurn(remainC, remainP);
      remainC', remainP' := remainC, remainP;
      if turn.callback.Completion? {
        remainC' := remainC - 1;
      } else {
        remainP' := remainP - 1;
      }
      log' := log + [turn];
      TurnKeeps(log, turn, first, c0, p0, remainC, remainP, ArrivedTasks(meanwhile, |log|), ArrivedPosts(meanwhile, |log|),
                c, p, completionQueue, postQueue, meanwhile(|log|));
      RunCallback(meanwhile(|log|));
    }

    /** One locked selection: the preferred queue first, if it still has callbacks of this drain. */
    method TakeTurn(remainC: nat, remainP: nat) returns (turn: Turn)
      requires remainC + remainP > 0 && remainC <= |completionQueue| && remainP <= |postQueue|
      modifies this`completionQueue, this`postQueue, this`asyncPreferCompletion
      ensures Fits(turn) && turn.preferred == old(Preference()) && turn.tasks == (remainC > 0) && turn.posts == (remainP > 0)
      ensures Preference() == Other(old(Preference()))
      ensures turn.callback.Completion? ==>
                old(completionQueue) == [turn.callback.task] + completionQueue && postQueue == old(postQueue)
      ensures turn.callback.Posted? ==>
                old(postQueue) == [turn.callback.post] + postQueue && completionQueue == old(completionQueue)
    {
      var preferred := Preference();
      var takeCompletion := if asyncPreferCompletion then remainC > 0 else remainP == 0;
      if takeCompletion {
        turn := Turn(preferred, remainC > 0, remainP > 0, Completion(completionQueue[0]));
        completionQueue := completionQueue[1..];
      } else {
        turn := Turn(preferred, remainC > 0, remainP > 0, Posted(postQueue[0]));
        postQueue := postQueue[1..];
      }
      asyncPreferCompletion := !asyncPreferCompletion;
    }

    /** The callback runs without the lock: anything may be queued, and the server may begin to stop. */
    method RunCallback(m: Meanwhile)
      modifies this`completionQueue, this`postQueue, this`running
      ensures completionQueue == old(completionQueue) + m.tasks && postQueue == old(postQueue) + m.posts
      ensures running == (old(running) && !m.stopping)
    {
      completionQueue := completionQueue + m.tasks;
      postQueue := postQueue + m.posts;
      running := running && !m.stopping;
    }
  }

  function Min(a: nat, b: nat): nat { if a < b then a else b }

  function ArrivedTasks(meanwhile: nat -> Meanwhile, n: nat): seq<TaskId>
  {
    if n == 0 then [] else ArrivedTasks(meanwhile, n - 1) + meanwhile(n - 1).tasks
  }

  function ArrivedPosts(meanwhile: nat -> Meanwhile, n: nat): seq<PostId>
  {
    if n == 0 then [] else ArrivedPosts(meanwhile, n - 1) + meanwhile(n - 1).posts
  }
}
