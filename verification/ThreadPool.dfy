/**
 The thread pool of src/thread/ThreadPool.cpp after start: worker threads that loop over the
 bounded blocking queue, threads that submit tasks, and one thread that calls stop.

 The queue is the monitor of BoundedBlockingQueue, step by step. The k-th task ever removed
 from it carries ticket k, and fates[k] records what became of that task.
 */
module ThreadPool {
  import opened Counting
  import opened Options
  import Q = BoundedBlockingQueue

  type Tid = Q.Tid

  /** A std::function: empty, or a callable known by a number. */
  datatype Task = NoTask | Task(id: nat)

  datatype Worker =
    | Begin                        // before the pre-thread callback has run
    | Check                        // about to test running_
    | Taking                       // inside queue_->take()
    | Holding(task: Task)          // take has returned
    | Busy(task: Task)             // busyThreads_ has been incremented
    | Running(task: Task)          // inside t()
    | Ending                       // about to decrement busyThreads_
    | Exited

  datatype Fate = InHand(w: Tid) | Started(w: Tid) | Finished | Skipped

  datatype Stop = NotCalled | Cleared | GivingUp | Joining | Returned

  datatype State = State(
    queue: Q.State<Task>,
    workers: map<Tid, Worker>,
    tickets: map<Tid, nat>,
    fates: seq<Fate>,
    running: bool,
    busyThreads: int,
    stopper: Tid,
    stop: Stop)

  datatype Step =
    | Submit(t: Tid, task: Task)   // run() on a started pool calls queue_->put
    | QueueStep(step: Q.Step<Task>)
    | Loop(w: Tid)                 // pre-thread callback, or the test of running_
    | TakeReturns(w: Tid)
    | IncBusy(w: Tid)
    | StartTask(w: Tid)
    | EndTask(w: Tid)
    | DecBusy(w: Tid)
    | StopClears
    | StopGivesUp
    | StopJoins
    | StopReturns

  predicate IsBusy(w: Worker) { w.Busy? || w.Running? || w.Ending? }

  predicate InTake(pc: Q.Pc<Task>)
  {
    || pc.TakeEntry? || pc.TakeLocked? || pc.TakeAsleep? || pc.TakeSignalled? || pc.TakeNotify?
    || (pc.Leaving? && !pc.result.Done?)
  }

  predicate InGiveUp(pc: Q.Pc<Task>)
  {
    pc.GiveUpEntry? || pc.GiveUpLocked? || pc.GiveUpTakers? || pc.GiveUpPutters?
  }

  ghost predicate Init(s: State, capacity: nat)
  {
    && Q.Init(s.queue, capacity)
    && s.workers.Keys <= s.queue.pcs.Keys && s.workers.Keys != {}
    && (forall w :: w in s.workers ==> s.workers[w].Begin?)
    && s.tickets == map[] && s.fates == []
    && s.running && s.busyThreads == 0
    && s.stop.NotCalled? && s.stopper in s.queue.pcs && s.stopper !in s.workers
  }

  predicate Enabled(s: State, step: Step)
  {
    match step
    case Submit(t, task) => t !in s.workers && t != s.stopper && Q.Enabled(s.queue, Q.CallPut(t, task))
    case QueueStep(q) =>
      && Q.Enabled(s.queue, q)
      && (q.Acquire? || q.Run? || q.Notify? || q.SpuriousWakeUp?
          || (q.Release? && q.t !in s.workers && q.t != s.stopper))
    case Loop(w) => w in s.workers && (s.workers[w].Begin? || s.workers[w].Check?)
    case TakeReturns(w) => w in s.workers && s.workers[w].Taking? && Q.Enabled(s.queue, Q.Release(w))
    case IncBusy(w) => w in s.workers && s.workers[w].Holding?
    case StartTask(w) => w in s.workers && s.workers[w].Busy?
    case EndTask(w) => w in s.workers && s.workers[w].Running?
    case DecBusy(w) => w in s.workers && s.workers[w].Ending?
    case StopClears => s.stop.NotCalled?
    case StopGivesUp => s.stop.Cleared?
    case StopJoins => s.stop.GivingUp? && Q.Enabled(s.queue, Q.Release(s.stopper))
    case StopReturns => s.stop.Joining? && forall w :: w in s.workers ==> s.workers[w].Exited?
  }

  /** The task in a taken result; an empty std::function when the queue was given up. */
  function TaskOf(r: Q.Result<Task>): Task
  {
    match r
    case Got(task) => task
    case _ => NoTask
  }

  /** The queue step of a take that removes an item hands out the next ticket. */
  function ApplyQueueStep(s: State, q: Q.Step<Task>): State
    requires Q.Enabled(s.queue, q)
  {
    var queue := Q.Apply(s.queue, q);
    if |queue.taken| > |s.queue.taken| then
      s.(queue := queue, tickets := s.tickets[q.t := |s.queue.taken|], fates := s.fates + [InHand(q.t)])
    else
      s.(queue := queue)
  }

  /** The worker is done with the task it carries. */
  function Settle(s: State, w: Tid, fate: Fate): State
  {
    if w in s.tickets && s.tickets[w] < |s.fates|
    then s.(fates := s.fates[s.tickets[w] := fate], tickets := s.tickets - {w})
    else s
  }

  function Goto(s: State, w: Tid, pc: Worker): State
  {
    s.(workers := s.workers[w := pc])
  }

  function Apply(s: State, step: Step): State
    requires Enabled(s, step)
  {
    match step
    case Submit(t, task) => s.(queue := Q.Apply(s.queue, Q.CallPut(t, task)))
    case QueueStep(q) => ApplyQueueStep(s, q)
    case Loop(w) =>
      if s.workers[w].Begin? then Goto(s, w, Check)
      else if s.running then
        Goto(s, w, Taking).(queue := Q.Goto(s.queue, w, Q.TakeEntry))
      else Goto(s, w, Exited)
    case TakeReturns(w) =>
      Goto(s, w, Holding(TaskOf(s.queue.pcs[w].result))).(queue := Q.Apply(s.queue, Q.Release(w)))
    case IncBusy(w) => Goto(s, w, Busy(s.workers[w].task)).(busyThreads := s.busyThreads + 1)
    case StartTask(w) =>
      var task := s.workers[w].task;
      if task.NoTask? then Goto(Settle(s, w, Skipped), w, Ending)
      else if w in s.tickets && s.tickets[w] < |s.fates| then
        Goto(s, w, Running(task)).(fates := s.fates[s.tickets[w] := Started(w)])
      else Goto(s, w, Running(task))
    case EndTask(w) => Goto(Settle(s, w, Finished), w, Ending)
    case DecBusy(w) => Goto(s, w, Check).(busyThreads := s.busyThreads - 1)
    case StopClears => s.(running := false, stop := Cleared)
    case StopGivesUp => s.(queue := Q.Goto(s.queue, s.stopper, Q.GiveUpEntry), stop := GivingUp)
    case StopJoins => s.(queue := Q.Apply(s.queue, Q.Release(s.stopper)), stop := Joining)
    case StopReturns => s.(stop := Returned)
  }

  ghost predicate Execution(ss: seq<State>, steps: seq<Step>, capacity: nat)
  {
    && |ss| == |steps| + 1 && Init(ss[0], capacity)
    && forall i {:trigger steps[i]} :: 0 <= i < |steps| ==>
         Enabled(ss[i], steps[i]) && ss[i + 1] == Apply(ss[i], steps[i])
  }

  // ---------- The invariant ----------

  /** Exactly the workers inside take are inside the queue, and nobody else takes. */
  ghost predicate Placement(s: State)
  {
    && s.workers.Keys <= s.queue.pcs.Keys
    && s.stopper in s.queue.pcs && s.stopper !in s.workers
    && (forall w :: w in s.workers ==>
          if s.workers[w].Taking? then InTake(s.queue.pcs[w]) else s.queue.pcs[w].Idle?)
    && (forall t :: t in s.queue.pcs && t !in s.workers ==> !InTake(s.queue.pcs[t]))
    && (forall t :: t in s.queue.pcs && t !in s.workers && t != s.stopper ==> !InGiveUp(s.queue.pcs[t]))
  }

  /** How far stop has come agrees with the flag and with the queue. */
  ghost predicate StopProgress(s: State)
  {
    && s.stopper in s.queue.pcs
    && (s.running <==> s.stop.NotCalled?)
    && var pc := s.queue.pcs[s.stopper];
       match s.stop
       case NotCalled => pc.Idle? && !s.queue.end
       case Cleared => pc.Idle? && !s.queue.end
       case GivingUp =>
         && (InGiveUp(pc) || pc == Q.Leaving(Q.Done))
         && ((pc.GiveUpEntry? || pc.GiveUpLocked?) ==> !s.queue.end)
         && (pc.GiveUpTakers? || pc.GiveUpPutters? ==> s.queue.end)
         && (pc.Leaving? ==> Q.GivenUp(s.queue))
       case Joining => pc.Idle? && Q.GivenUp(s.queue)
       case Returned => pc.Idle? && Q.GivenUp(s.queue) && forall w :: w in s.workers ==> s.workers[w].Exited?
  }

  ghost predicate BusyCounted(s: State)
  {
    s.busyThreads == Count(s.workers, IsBusy)
  }

  /** What worker w carries when its ticket is k. */
  ghost predicate Carries(s: State, w: Tid, k: nat)
  {
    && w in s.workers && w in s.queue.pcs && k < |s.fates| == |s.queue.taken|
    && var task := s.queue.taken[k];
       match s.workers[w]
       case Taking =>
         s.fates[k] == InHand(w) && (s.queue.pcs[w] == Q.TakeNotify(task) || s.queue.pcs[w] == Q.Leaving(Q.Got(task)))
       case Holding(x) => s.fates[k] == InHand(w) && x == task
       case Busy(x) => s.fates[k] == InHand(w) && x == task
       case Running(x) => s.fates[k] == Started(w) && x == task && x.Task?
       case _ => false
  }

  /** A worker without a ticket has no task. */
  ghost predicate EmptyHanded(s: State, w: Tid)
  {
    && w in s.workers && w in s.queue.pcs
    && match s.workers[w]
       case Taking => !s.queue.pcs[w].TakeNotify? && !(s.queue.pcs[w].Leaving? && s.queue.pcs[w].result.Got?)
       case Holding(x) => x.NoTask?
       case Busy(x) => x.NoTask?
       case Running(_) => false
       case _ => true
  }

  ghost predicate TicketsAgree(s: State)
  {
    && |s.fates| == |s.queue.taken|
    && (forall w :: w in s.tickets ==> Carries(s, w, s.tickets[w]))
    && (forall w :: w in s.workers && w !in s.tickets ==> EmptyHanded(s, w))
    && (forall k :: 0 <= k < |s.fates| && (s.fates[k].InHand? || s.fates[k].Started?) ==>
          s.fates[k].w in s.tickets && s.tickets[s.fates[k].w] == k)
    && (forall k :: 0 <= k < |s.fates| ==>
          (s.fates[k].Finished? ==> s.queue.taken[k].Task?) && (s.fates[k].Skipped? ==> s.queue.taken[k].NoTask?))
  }

  ghost predicate Inv(s: State)
  {
    Q.Inv(s.queue) && Placement(s) && StopProgress(s) && BusyCounted(s) && TicketsAgree(s)
  }

  // ---------- Steps inside the queue ----------

  /** The queue step a pool step performs, if any. */
  function QueuePart(s: State, step: Step): Option<Q.Step<Task>>
    requires Enabled(s, step)
  {
    match step
    case Submit(t, task) => Some(Q.CallPut(t, task))
    case QueueStep(q) => Some(q)
    case TakeReturns(w) => Some(Q.Release(w))
    case StopGivesUp => Some(Q.CallGiveUp(s.stopper))
    case StopJoins => Some(Q.Release(s.stopper))
    case Loop(w) => if s.workers[w].Check? && s.running then Some(Q.CallTake(w)) else None
    case _ => None
  }

  /** Every pool step is a run of the queue monitor. */
  lemma QueueRefines(s: State, step: Step)
    requires Inv(s) && Enabled(s, step)
    ensures match QueuePart(s, step)
            case None => Apply(s, step).queue == s.queue
            case Some(q) => Q.Enabled(s.queue, q) && Apply(s, step).queue == Q.Apply(s.queue, q)
    ensures Q.Inv(Apply(s, step).queue)
  {
    var q := QueuePart(s, step);
    if q.Some? {
      Q.StepKeepsInv(s.queue, q.value);
    }
  }

  /** A step inside put, take or giveUp stays inside it. */
  lemma StaysInside(q: Q.State<Task>, step: Q.Step<Task>, u: Tid)
    requires Q.Enabled(q, step) && !step.CallPut? && !step.CallTake? && !step.CallGiveUp? && !step.Release?
    requires u in q.pcs
    ensures var q' := Q.Apply(q, step);
            && u in q'.pcs
            && (InTake(q'.pcs[u]) <==> InTake(q.pcs[u]))
            && (q'.pcs[u].Idle? <==> q.pcs[u].Idle?)
            && (InGiveUp(q'.pcs[u]) ==> InGiveUp(q.pcs[u]))
            && (InGiveUp(q.pcs[u]) ==> InGiveUp(q'.pcs[u]) || q'.pcs[u] == Q.Leaving(Q.Done))
  {
  }

  lemma QueueStepPlacement(s: State, q: Q.Step<Task>)
    requires Placement(s) && Enabled(s, QueueStep(q))
    ensures Placement(ApplyQueueStep(s, q))
  {
    var s' := ApplyQueueStep(s, q);
    if q.Release? {
      assert s'.queue.pcs == s.queue.pcs[q.t := Q.Idle];
    } else {
      forall u | u in s.queue.pcs
        ensures u in s'.queue.pcs && (InTake(s'.queue.pcs[u]) <==> InTake(s.queue.pcs[u]))
        ensures s'.queue.pcs[u].Idle? <==> s.queue.pcs[u].Idle?
        ensures InGiveUp(s'.queue.pcs[u]) ==> InGiveUp(s.queue.pcs[u])
      {
        StaysInside(s.queue, q, u);
      }
      assert s'.queue.pcs.Keys == s.queue.pcs.Keys by { KeysKept(s.queue, q); }
    }
  }

  lemma KeysKept(q: Q.State<Task>, step: Q.Step<Task>)
    requires Q.Enabled(q, step)
    requires step.Notify? && step.woken.Some? ==> step.woken.value in q.pcs
    ensures Q.Apply(q, step).pcs.Keys == q.pcs.Keys
  {
  }

  /** One thread moves, in the queue and as a worker. */
  lemma WorkerMovePlacement(s: State, step: Step)
    requires Placement(s) && Enabled(s, step)
    requires step.IncBusy? || step.StartTask? || step.EndTask? || step.DecBusy? || step.StopClears? || step.StopReturns?
    ensures Placement(Apply(s, step))
  {
    assert Apply(s, step).queue == s.queue;
  }

  lemma SubmitPlacement(s: State, t: Tid, task: Task)
    requires Placement(s) && Enabled(s, Submit(t, task))
    ensures Placement(Apply(s, Submit(t, task)))
  {
  }

  lemma LoopPlacement(s: State, w: Tid)
    requires Placement(s) && Enabled(s, Loop(w))
    ensures Placement(Apply(s, Loop(w)))
  {
  }

  lemma TakeReturnsPlacement(s: State, w: Tid)
    requires Placement(s) && Enabled(s, TakeReturns(w))
    ensures Placement(Apply(s, TakeReturns(w)))
  {
  }

  lemma StopPlacement(s: State)
    requires Placement(s)
    ensures Enabled(s, StopGivesUp) ==> Placement(Apply(s, StopGivesUp))
    ensures Enabled(s, StopJoins) ==> Placement(Apply(s, StopJoins))
  {
  }

  lemma PlacementKept(s: State, step: Step)
    requires Inv(s) && Enabled(s, step)
    ensures Placement(Apply(s, step))
  {
    match step
    case QueueStep(q) => QueueStepPlacement(s, q);
    case Submit(t, task) => SubmitPlacement(s, t, task);
    case Loop(w) => LoopPlacement(s, w);
    case TakeReturns(w) => TakeReturnsPlacement(s, w);
    case StopGivesUp => StopPlacement(s);
    case StopJoins => StopPlacement(s);
    case _ => WorkerMovePlacement(s, step);
  }

  // ---------- stop ----------

  /** A thread that is not asleep is not moved by the steps of others. */
  lemma AwakeUntouched(q: Q.State<Task>, step: Q.Step<Task>, u: Tid)
    requires Q.Enabled(q, step) && u in q.pcs && u != step.t && !Q.Asleep(q.pcs[u])
    ensures u in Q.Apply(q, step).pcs && Q.Apply(q, step).pcs[u] == q.pcs[u]
  {
  }

  /** Only a giveUp under way sets end_. */
  lemma EndSetByGiveUp(q: Q.State<Task>, step: Q.Step<Task>)
    requires Q.Enabled(q, step)
    ensures Q.Apply(q, step).end == (q.end || (step.Run? && q.pcs[step.t].GiveUpLocked?))
    ensures Q.GivenUp(q) ==> Q.GivenUp(Q.Apply(q, step))
  {
  }

  /** giveUp advances one phase at a time. */
  lemma GiveUpPhases(q: Q.State<Task>, step: Q.Step<Task>)
    requires Q.Enabled(q, step) && InGiveUp(q.pcs[step.t])
    ensures var pc, pc' := q.pcs[step.t], Q.Apply(q, step).pcs[step.t];
            match pc
            case GiveUpEntry => pc'.GiveUpLocked?
            case GiveUpLocked => pc'.GiveUpTakers?
            case GiveUpTakers => pc'.GiveUpPutters?
            case _ => pc' == Q.Leaving(Q.Done)
  {
  }

  lemma StopKeptByOthers(s: State, s': State, q: Q.Step<Task>)
    requires Placement(s) && StopProgress(s) && Q.Enabled(s.queue, q) && q.t != s.stopper
    requires s'.queue == Q.Apply(s.queue, q) && s'.stopper == s.stopper && s'.stop == s.stop && s'.running == s.running
    requires s.stop.Returned? ==> forall w :: w in s'.workers ==> s'.workers[w].Exited?
    ensures StopProgress(s')
  {
    AwakeUntouched(s.queue, q, s.stopper);
    EndSetByGiveUp(s.queue, q);
    assert !InGiveUp(s.queue.pcs[q.t]);
  }

  lemma StopKeptByStopper(s: State, q: Q.Step<Task>)
    requires Placement(s) && StopProgress(s) && Enabled(s, QueueStep(q)) && q.t == s.stopper
    requires Q.Inv(s.queue) && Q.Inv(Q.Apply(s.queue, q))
    ensures StopProgress(ApplyQueueStep(s, q))
  {
    GiveUpPhases(s.queue, q);
    EndSetByGiveUp(s.queue, q);
    if s.queue.pcs[q.t].GiveUpPutters? {
      BroadcastDone(s.queue, q.t);
    }
  }

  lemma BroadcastDone(q: Q.State<Task>, t: Tid)
    requires Q.Inv(q) && t in q.pcs && q.pcs[t].GiveUpPutters? && Q.Inv(Q.Apply(q, Q.Run(t)))
    ensures Q.GivenUp(Q.Apply(q, Q.Run(t)))
  {
  }

  lemma QueueStepKeepsStop(s: State, q: Q.Step<Task>)
    requires Q.Inv(s.queue) && Placement(s) && StopProgress(s) && Enabled(s, QueueStep(q))
    ensures StopProgress(ApplyQueueStep(s, q))
  {
    Q.StepKeepsInv(s.queue, q);
    if q.t == s.stopper { StopKeptByStopper(s, q); } else { StopKeptByOthers(s, ApplyQueueStep(s, q), q); }
  }

  lemma StopProgressKept(s: State, step: Step)
    requires Inv(s) && Enabled(s, step)
    ensures StopProgress(Apply(s, step))
  {
    match step
    case QueueStep(q) => QueueStepKeepsStop(s, q);
    case Submit(t, task) => StopKeptByOthers(s, Apply(s, step), Q.CallPut(t, task));
    case TakeReturns(w) => StopKeptByOthers(s, Apply(s, step), Q.Release(w));
    case Loop(w) => LoopKeepsStop(s, w);
    case _ => StopCallKeepsStop(s, step);
  }

  lemma StopCallKeepsStop(s: State, step: Step)
    requires Placement(s) && StopProgress(s) && Enabled(s, step)
    requires !step.QueueStep? && !step.Submit? && !step.TakeReturns? && !step.Loop?
    ensures StopProgress(Apply(s, step))
  {
    if step.StopJoins? { EndSetByGiveUp(s.queue, Q.Release(s.stopper)); }
  }

  lemma LoopKeepsStop(s: State, w: Tid)
    requires Placement(s) && StopProgress(s) && Enabled(s, Loop(w))
    ensures StopProgress(Apply(s, Loop(w)))
  {
  }

  // ---------- busyThreads_ ----------

  lemma BusyKept(s: State, step: Step)
    requires BusyCounted(s) && Enabled(s, step)
    ensures BusyCounted(Apply(s, step))
  {
    var s' := Apply(s, step);
    match step
    case Loop(w) => CountUpdate(s.workers, w, s'.workers[w], IsBusy);
    case TakeReturns(w) => CountUpdate(s.workers, w, s'.workers[w], IsBusy);
    case IncBusy(w) => CountUpdate(s.workers, w, s'.workers[w], IsBusy);
    case StartTask(w) => CountUpdate(s.workers, w, s'.workers[w], IsBusy);
    case EndTask(w) => CountUpdate(s.workers, w, s'.workers[w], IsBusy);
    case DecBusy(w) => CountUpdate(s.workers, w, s'.workers[w], IsBusy);
    case _ =>
  }

  // ---------- Tickets ----------

  /** How a step inside the queue moves a thread that is inside take. */
  lemma TakePhases(q: Q.State<Task>, step: Q.Step<Task>, w: Tid)
    requires Q.Enabled(q, step) && w in q.pcs && InTake(q.pcs[w])
    requires step.Acquire? || step.Run? || step.Notify? || step.SpuriousWakeUp?
    ensures var q', pc := Q.Apply(q, step), q.pcs[w];
            && w in q'.pcs
            && match pc
               case TakeNotify(x) => q'.pcs[w] == pc || q'.pcs[w] == Q.Leaving(Q.Got(x))
               case Leaving(_) => q'.pcs[w] == pc
               case _ =>
                 if step.t == w && |q'.taken| > |q.taken| then q'.pcs[w] == Q.TakeNotify(q'.taken[|q.taken|])
                 else !q'.pcs[w].TakeNotify? && !(q'.pcs[w].Leaving? && q'.pcs[w].result.Got?)
  {
  }

  lemma TakenGrows(q: Q.State<Task>, step: Q.Step<Task>)
    requires Q.Enabled(q, step)
    ensures var q' := Q.Apply(q, step);
            && q.taken <= q'.taken && |q'.taken| <= |q.taken| + 1
            && (|q'.taken| > |q.taken| ==> step.Run? && q.pcs[step.t].TakeLocked? && !q.end)
  {
  }

  /** A queue step that removes nothing leaves every ticket as it is. */
  lemma TicketsKeptWithoutTake(s: State, q: Q.Step<Task>)
    requires Placement(s) && TicketsAgree(s) && Enabled(s, QueueStep(q))
    requires Q.Apply(s.queue, q).taken == s.queue.taken
    ensures TicketsAgree(ApplyQueueStep(s, q))
  {
    var s' := ApplyQueueStep(s, q);
    forall w | w in s.workers
      ensures w in s'.queue.pcs
      ensures forall k: nat :: Carries(s, w, k) ==> Carries(s', w, k)
      ensures EmptyHanded(s, w) ==> EmptyHanded(s', w)
    {
      if q.Release? {
        assert s'.queue.pcs == s.queue.pcs[q.t := Q.Idle] && q.t != w;
      } else if s.workers[w].Taking? {
        TakePhases(s.queue, q, w);
      } else {
        StaysInside(s.queue, q, w);
      }
    }
  }

  /** The queue step that removes an item hands its ticket to the worker that removed it. */
  lemma TicketsKeptByTake(s: State, q: Q.Step<Task>)
    requires Placement(s) && TicketsAgree(s) && Enabled(s, QueueStep(q))
    requires |Q.Apply(s.queue, q).taken| > |s.queue.taken|
    ensures TicketsAgree(ApplyQueueStep(s, q))
  {
    var s' := ApplyQueueStep(s, q);
    TakenGrows(s.queue, q);
    var t, n := q.t, |s.queue.taken|;
    assert t in s.workers && s.workers[t].Taking?;
    assert t !in s.tickets;
    forall w | w in s.workers
      ensures w in s'.queue.pcs
      ensures w != t ==> forall k: nat :: Carries(s, w, k) ==> Carries(s', w, k)
      ensures w != t && EmptyHanded(s, w) ==> EmptyHanded(s', w)
      ensures w == t ==> Carries(s', t, n)
    {
      if s.workers[w].Taking? { TakePhases(s.queue, q, w); } else { StaysInside(s.queue, q, w); }
    }
  }

  /** A worker that moves on keeps, settles or never had a ticket. */
  lemma TicketsKeptByWorker(s: State, s': State, w: Tid)
    requires TicketsAgree(s) && w in s.workers && w in s.queue.pcs && w in s'.queue.pcs
    requires s'.queue.taken == s.queue.taken && s'.queue.pcs == s.queue.pcs[w := s'.queue.pcs[w]]
    requires w in s'.workers && s'.workers == s.workers[w := s'.workers[w]]
    requires
      || (s'.tickets == s.tickets && s'.fates == s.fates
          && (w in s.tickets ==> Carries(s', w, s.tickets[w])) && (w !in s.tickets ==> EmptyHanded(s', w)))
      || (w in s.tickets && s'.tickets == s.tickets && s'.fates == s.fates[s.tickets[w] := Started(w)]
          && Carries(s', w, s.tickets[w]))
      || (w in s.tickets && s'.tickets == s.tickets - {w} && EmptyHanded(s', w)
          && s'.fates == s.fates[s.tickets[w] := if s.queue.taken[s.tickets[w]].Task? then Finished else Skipped])
    ensures TicketsAgree(s')
  {
    forall u | u in s.workers && u != w
      ensures forall k: nat :: Carries(s, u, k) && (w in s.tickets ==> s.tickets[w] != k) ==> Carries(s', u, k)
      ensures EmptyHanded(s, u) ==> EmptyHanded(s', u)
    {
    }
    forall u | u in s.tickets && u != w && w in s.tickets
      ensures s.tickets[u] != s.tickets[w]
    {
      assert Carries(s, u, s.tickets[u]) && Carries(s, w, s.tickets[w]);
    }
  }

  lemma QueueStepKeepsTickets(s: State, q: Q.Step<Task>)
    requires Placement(s) && TicketsAgree(s) && Enabled(s, QueueStep(q))
    ensures TicketsAgree(ApplyQueueStep(s, q))
  {
    TakenGrows(s.queue, q);
    if |Q.Apply(s.queue, q).taken| > |s.queue.taken| {
      TicketsKeptByTake(s, q);
    } else {
      TicketsKeptWithoutTake(s, q);
    }
  }

  lemma TicketsKept(s: State, step: Step)
    requires Inv(s) && Enabled(s, step)
    ensures TicketsAgree(Apply(s, step))
  {
    match step
    case QueueStep(q) => QueueStepKeepsTickets(s, q);
    case Submit(t, task) => StopKeepsTickets(s, Apply(s, step), t, Q.PutEntry(task));
    case Loop(w) => LoopKeepsTickets(s, w);
    case TakeReturns(w) => TakeReturnsKeepsTickets(s, w);
    case IncBusy(w) => WorkerKeepsTickets(s, w);
    case StartTask(w) => StartTaskKeepsTickets(s, w);
    case EndTask(w) => WorkerKeepsTickets(s, w);
    case DecBusy(w) => WorkerKeepsTickets(s, w);
    case StopGivesUp => StopKeepsTickets(s, Apply(s, step), s.stopper, Q.GiveUpEntry);
    case StopJoins => StopKeepsTickets(s, Apply(s, step), s.stopper, Q.Idle);
    case StopClears => StopKeepsTickets(s, Apply(s, step), s.stopper, Q.Idle);
    case StopReturns => StopKeepsTickets(s, Apply(s, step), s.stopper, Q.Idle);
  }

  lemma WorkerKeepsTickets(s: State, w: Tid)
    requires Placement(s) && TicketsAgree(s)
    ensures Enabled(s, IncBusy(w)) ==> TicketsAgree(Apply(s, IncBusy(w)))
    ensures Enabled(s, EndTask(w)) ==> TicketsAgree(Apply(s, EndTask(w)))
    ensures Enabled(s, DecBusy(w)) ==> TicketsAgree(Apply(s, DecBusy(w)))
  {
    if Enabled(s, IncBusy(w)) { TicketsKeptByWorker(s, Apply(s, IncBusy(w)), w); }
    if Enabled(s, EndTask(w)) { TicketsKeptByWorker(s, Apply(s, EndTask(w)), w); }
    if Enabled(s, DecBusy(w)) { TicketsKeptByWorker(s, Apply(s, DecBusy(w)), w); }
  }

  lemma LoopKeepsTickets(s: State, w: Tid)
    requires Placement(s) && TicketsAgree(s) && Enabled(s, Loop(w))
    ensures TicketsAgree(Apply(s, Loop(w)))
  {
    TicketsKeptByWorker(s, Apply(s, Loop(w)), w);
  }

  lemma TakeReturnsKeepsTickets(s: State, w: Tid)
    requires Placement(s) && TicketsAgree(s) && Enabled(s, TakeReturns(w))
    ensures TicketsAgree(Apply(s, TakeReturns(w)))
  {
    TicketsKeptByWorker(s, Apply(s, TakeReturns(w)), w);
  }

  lemma StartTaskKeepsTickets(s: State, w: Tid)
    requires Placement(s) && TicketsAgree(s) && Enabled(s, StartTask(w))
    ensures TicketsAgree(Apply(s, StartTask(w)))
  {
    TicketsKeptByWorker(s, Apply(s, StartTask(w)), w);
  }

  lemma StopKeepsTickets(s: State, s': State, t: Tid, pc: Q.Pc<Task>)
    requires TicketsAgree(s) && t !in s.workers
    requires s'.workers == s.workers && s'.tickets == s.tickets && s'.fates == s.fates
    requires s'.queue.taken == s.queue.taken && (s'.queue == s.queue || s'.queue.pcs == s.queue.pcs[t := pc])
    ensures TicketsAgree(s')
  {
  }

  // ---------- What holds over whole runs ----------

  lemma StepKeepsInv(s: State, step: Step)
    requires Inv(s) && Enabled(s, step)
    ensures Inv(Apply(s, step))
  {
    QueueRefines(s, step);
    PlacementKept(s, step);
    StopProgressKept(s, step);
    BusyKept(s, step);
    TicketsKept(s, step);
  }

  lemma InitHasInv(s: State, capacity: nat)
    requires Init(s, capacity)
    ensures Inv(s)
  {
  }

  lemma {:induction false} InvAlways(ss: seq<State>, steps: seq<Step>, capacity: nat, i: nat)
    requires Execution(ss, steps, capacity) && i < |ss|
    ensures Inv(ss[i])
  {
    if i == 0 {
      InitHasInv(ss[0], capacity);
    } else {
      InvAlways(ss, steps, capacity, i - 1);
      StepKeepsInv(ss[i - 1], steps[i - 1]);
    }
  }

  /** Main result: busyThreads_ is the number of workers between its increment and its decrement. */
  lemma BusyThreadsExact(ss: seq<State>, steps: seq<Step>, capacity: nat, i: nat)
    requires Execution(ss, steps, capacity) && i < |ss|
    ensures ss[i].busyThreads == |set w | w in ss[i].workers && IsBusy(ss[i].workers[w])|
  {
    InvAlways(ss, steps, capacity, i);
    assert Where(ss[i].workers, IsBusy) == set w | w in ss[i].workers && IsBusy(ss[i].workers[w]);
  }

  /** Worker w holds accepted task number k, before or while it runs. */
  ghost predicate HeldBy(s: State, k: nat, w: Tid)
  {
    && w in s.workers && w in s.tickets && s.tickets[w] == k
  }

  /**
   Main result: every accepted task is still queued, or held by exactly one worker, or done with,
   and a callable is never skipped.
   */
  lemma TaskAccounting(ss: seq<State>, steps: seq<Step>, capacity: nat, i: nat, k: nat)
    requires Execution(ss, steps, capacity) && i < |ss| && k < |ss[i].queue.accepted|
    ensures var s := ss[i];
            && |s.fates| + |s.queue.items| == |s.queue.accepted|
            && (k >= |s.fates| ==> s.queue.items[k - |s.fates|] == s.queue.accepted[k] && forall w :: !HeldBy(s, k, w))
            && (k < |s.fates| ==>
                  match s.fates[k]
                  case InHand(w) => forall u :: HeldBy(s, k, u) <==> u == w
                  case Started(w) =>
                    w in s.workers && s.workers[w] == Running(s.queue.accepted[k])
                    && forall u :: HeldBy(s, k, u) <==> u == w
                  case Finished => s.queue.accepted[k].Task? && forall u :: !HeldBy(s, k, u)
                  case Skipped => s.queue.accepted[k].NoTask? && forall u :: !HeldBy(s, k, u))
  {
    InvAlways(ss, steps, capacity, i);
    var s := ss[i];
    assert s.queue.accepted == s.queue.taken + s.queue.items;
    forall u | HeldBy(s, k, u)
      ensures k < |s.fates| && s.fates[k] in {InHand(u), Started(u)}
    {
      assert Carries(s, u, k);
    }
    if k < |s.fates| && (s.fates[k].InHand? || s.fates[k].Started?) {
      assert Carries(s, s.fates[k].w, k);
    }
  }

  function FateRank(f: Fate): nat
  {
    match f
    case InHand(_) => 0
    case Started(_) => 1
    case _ => 2
  }

  /** Every task dequeued has come at least as far in later as in fates. */
  predicate NoneGoesBack(fates: seq<Fate>, later: seq<Fate>)
  {
    && |fates| <= |later|
    && forall k :: 0 <= k < |fates| ==> FateRank(fates[k]) <= FateRank(later[k])
  }

  lemma FatesMoveForward(s: State, step: Step)
    requires Inv(s) && Enabled(s, step)
    ensures NoneGoesBack(s.fates, Apply(s, step).fates)
  {
    assert forall w :: w in s.tickets ==> Carries(s, w, s.tickets[w]);
  }

  lemma FatesMoveAt(ss: seq<State>, steps: seq<Step>, capacity: nat, i: nat)
    requires Execution(ss, steps, capacity) && 0 < i < |ss|
    ensures NoneGoesBack(ss[i - 1].fates, ss[i].fates)
  {
    InvAlways(ss, steps, capacity, i - 1);
    FatesMoveForward(ss[i - 1], steps[i - 1]);
  }

  lemma ForwardChain(a: seq<Fate>, b: seq<Fate>, c: seq<Fate>)
    requires NoneGoesBack(a, b) && NoneGoesBack(b, c)
    ensures NoneGoesBack(a, c)
  {
  }

  lemma {:induction false} FatesForward(ss: seq<State>, steps: seq<Step>, capacity: nat, i: nat, j: nat)
    requires Execution(ss, steps, capacity) && i <= j < |ss|
    ensures NoneGoesBack(ss[i].fates, ss[j].fates)
  {
    if i < j {
      FatesForward(ss, steps, capacity, i, j - 1);
      FatesMoveAt(ss, steps, capacity, j);
      ForwardChain(ss[i].fates, ss[j - 1].fates, ss[j].fates);
    }
  }

  /** Worker w enters t() with a callable. */
  predicate Starts(s: State, step: Step)
  {
    step.StartTask? && step.w in s.workers && s.workers[step.w].Busy? && s.workers[step.w].task.Task?
  }

  /** Between s and s' worker w starts the task it has in hand. */
  predicate StartsHeld(s: State, s': State, w: Tid)
  {
    && w in s.tickets && s.tickets[w] < |s.fates|
    && s.fates[s.tickets[w]] == InHand(w)
    && s'.fates == s.fates[s.tickets[w] := Started(w)]
  }

  lemma StartOfHeldTask(s: State, w: Tid)
    requires TicketsAgree(s) && Starts(s, StartTask(w))
    ensures StartsHeld(s, Apply(s, StartTask(w)), w)
  {
    assert w in s.tickets;
    assert Carries(s, w, s.tickets[w]);
  }

  lemma StartAt(ss: seq<State>, steps: seq<Step>, capacity: nat, i: nat)
    requires Execution(ss, steps, capacity) && i < |steps| && Starts(ss[i], steps[i])
    ensures StartsHeld(ss[i], ss[i + 1], steps[i].w)
  {
    InvAlways(ss, steps, capacity, i);
    StartOfHeldTask(ss[i], steps[i].w);
  }

  lemma OneTicketEach(s: State, s': State, w: Tid, later: State, later': State, u: Tid)
    requires StartsHeld(s, s', w) && NoneGoesBack(s'.fates, later.fates) && StartsHeld(later, later', u)
    ensures s.tickets[w] != later.tickets[u]
  {
  }

  /** Main result: no accepted task is started twice. */
  lemma StartsOnce(ss: seq<State>, steps: seq<Step>, capacity: nat, i: nat, j: nat)
    requires Execution(ss, steps, capacity) && i < j < |steps|
    requires Starts(ss[i], steps[i]) && Starts(ss[j], steps[j])
    ensures steps[i].w in ss[i].tickets && steps[j].w in ss[j].tickets
    ensures ss[i].tickets[steps[i].w] != ss[j].tickets[steps[j].w]
  {
    StartAt(ss, steps, capacity, i);
    StartAt(ss, steps, capacity, j);
    FatesForward(ss, steps, capacity, i + 1, j);
    OneTicketEach(ss[i], ss[i + 1], steps[i].w, ss[j], ss[j + 1], steps[j].w);
  }

  // ---------- The queue inside the pool ----------

  /** The run of the queue that a run of the pool contains. */
  lemma {:induction false} QueueRun(ss: seq<State>, steps: seq<Step>, capacity: nat, i: nat)
    returns (qs: seq<Q.State<Task>>, qsteps: seq<Q.Step<Task>>)
    requires Execution(ss, steps, capacity) && i < |ss|
    ensures Q.Execution(qs, qsteps, capacity) && qs[|qs| - 1] == ss[i].queue
  {
    if i == 0 {
      qs, qsteps := [ss[0].queue], [];
    } else {
      qs, qsteps := QueueRun(ss, steps, capacity, i - 1);
      InvAlways(ss, steps, capacity, i - 1);
      QueueRefines(ss[i - 1], steps[i - 1]);
      var part := QueuePart(ss[i - 1], steps[i - 1]);
      if part.Some? {
        RunGrows(qs, qsteps, capacity, part.value);
        qs, qsteps := qs + [Q.Apply(qs[|qs| - 1], part.value)], qsteps + [part.value];
      }
    }
  }

  lemma RunGrows(qs: seq<Q.State<Task>>, qsteps: seq<Q.Step<Task>>, capacity: nat, q: Q.Step<Task>)
    requires Q.Execution(qs, qsteps, capacity) && Q.Enabled(qs[|qs| - 1], q)
    ensures Q.Execution(qs + [Q.Apply(qs[|qs| - 1], q)], qsteps + [q], capacity)
  {
  }

  /**
   So what is proved about runs of the queue holds inside the pool: nobody sleeps without reason
   when the queue is at rest, somebody can move when it is not, and tasks leave it in order.
   */
  lemma QueueResultsInPool(ss: seq<State>, steps: seq<Step>, capacity: nat, i: nat)
    requires Execution(ss, steps, capacity) && i < |ss|
    ensures var q := ss[i].queue;
            && q.taken + q.items == q.accepted && |q.items| <= capacity
            && (!Q.Quiescent(q) ==> exists step :: Q.Internal(step) && Q.Enabled(q, step))
            && (Q.Quiescent(q) ==>
                  || (forall t :: t in q.pcs ==> q.pcs[t].Idle?)
                  || (!q.end && q.items == [] && forall t :: t in q.pcs ==> !q.pcs[t].PutAsleep?)
                  || (!q.end && Q.Full(q) && forall t :: t in q.pcs ==> !q.pcs[t].TakeAsleep?))
  {
    var qs, qsteps := QueueRun(ss, steps, capacity, i);
    var last := |qs| - 1;
    Q.FirstInFirstOut(qs, qsteps, capacity, last);
    if Q.Quiescent(qs[last]) {
      Q.NoDeadlock(qs, qsteps, capacity, last);
    } else {
      var step := Q.Progress(qs, qsteps, capacity, last);
    }
  }

  // ---------- Shutdown ----------

  /** Between s and s' nothing has been added to the queue or taken from it. */
  ghost predicate QueueUntouched(s: State, s': State)
  {
    && Q.GivenUp(s'.queue)
    && s'.queue.items == s.queue.items && s'.queue.taken == s.queue.taken
    && |s'.fates| == |s.fates|
  }

  /** Main result: once giveUp is done, no worker dequeues and what is queued never runs. */
  lemma {:induction false} NothingDequeuedAfterGiveUp(ss: seq<State>, steps: seq<Step>, capacity: nat, i: nat, j: nat)
    requires Execution(ss, steps, capacity) && i <= j < |ss| && Q.GivenUp(ss[i].queue)
    ensures QueueUntouched(ss[i], ss[j])
  {
    if i < j {
      NothingDequeuedAfterGiveUp(ss, steps, capacity, i, j - 1);
      NothingDequeuedAt(ss, steps, capacity, j);
      UntouchedChain(ss[i], ss[j - 1], ss[j]);
    }
  }

  lemma UntouchedChain(a: State, b: State, c: State)
    requires QueueUntouched(a, b) && QueueUntouched(b, c)
    ensures QueueUntouched(a, c)
  {
  }

  lemma NothingDequeuedAt(ss: seq<State>, steps: seq<Step>, capacity: nat, i: nat)
    requires Execution(ss, steps, capacity) && 0 < i < |ss| && Q.GivenUp(ss[i - 1].queue)
    ensures QueueUntouched(ss[i - 1], ss[i])
  {
    InvAlways(ss, steps, capacity, i - 1);
    NothingDequeuedByStep(ss[i - 1], steps[i - 1]);
  }

  lemma NothingDequeuedByStep(s: State, step: Step)
    requires Inv(s) && Enabled(s, step) && Q.GivenUp(s.queue)
    ensures QueueUntouched(s, Apply(s, step))
  {
    StepKeepsInv(s, step);
    QueueRefines(s, step);
    var q := QueuePart(s, step);
    if q.Some? {
      Q.GivenUpStep(s.queue, q.value);
    }
  }

  /** Main result: when stop returns, all workers have exited and none is counted as busy. */
  lemma StopReturnsClean(ss: seq<State>, steps: seq<Step>, capacity: nat, i: nat)
    requires Execution(ss, steps, capacity) && i < |ss| && ss[i].stop.Returned?
    ensures forall w :: w in ss[i].workers ==> ss[i].workers[w].Exited?
    ensures ss[i].busyThreads == 0 && Q.GivenUp(ss[i].queue)
    ensures forall k :: 0 <= k < |ss[i].fates| ==> ss[i].fates[k].Finished? || ss[i].fates[k].Skipped?
  {
    InvAlways(ss, steps, capacity, i);
    var s := ss[i];
    CountZero(s.workers, IsBusy);
    assert forall w :: w in s.tickets ==> Carries(s, w, s.tickets[w]);
  }

  /** Stop has cleared running_ and giveUp is done. */
  ghost predicate ShuttingDown(s: State)
  {
    !s.running && Q.GivenUp(s.queue)
  }

  /** How many steps of its own a worker can still take during shutdown. */
  function StepsLeft(s: State, w: Tid): nat
    requires w in s.workers && w in s.queue.pcs
  {
    match s.workers[w]
    case Begin => 2
    case Exited => 0
    case Check => 1
    case Ending => 2
    case Running(_) => 3
    case Busy(_) => 4
    case Holding(_) => 5
    case Taking =>
      match s.queue.pcs[w]
      case Leaving(_) => 6
      case TakeNotify(_) => 7
      case TakeLocked => 8
      case TakeAsleep => 11
      case TakeSignalled => 9
      case _ => 10
  }

  /** The thread that takes a step. */
  function Actor(s: State, step: Step): Tid
  {
    match step
    case Submit(t, _) => t
    case QueueStep(q) => q.t
    case Loop(w) => w
    case TakeReturns(w) => w
    case IncBusy(w) => w
    case StartTask(w) => w
    case EndTask(w) => w
    case DecBusy(w) => w
    case _ => s.stopper
  }

  /** w moved on if it was the actor; otherwise it stayed where it was. */
  ghost predicate Closer(s: State, s': State, w: Tid, actor: Tid)
  {
    && w in s.workers && w in s.queue.pcs && w in s'.workers && w in s'.queue.pcs
    && if actor == w then StepsLeft(s', w) < StepsLeft(s, w) else StepsLeft(s', w) == StepsLeft(s, w)
  }

  /**
   Main result: during shutdown every step of a worker brings it strictly closer to its exit and
   no step of another thread sets it back. EndTask is the assumption that the task ends.
   */
  lemma ShutdownTerminates(s: State, step: Step, w: Tid)
    requires Inv(s) && ShuttingDown(s) && Enabled(s, step) && w in s.workers
    ensures ShuttingDown(Apply(s, step)) && Closer(s, Apply(s, step), w, Actor(s, step))
  {
    match step
    case QueueStep(q) => ShutdownQueueStep(s, q, w);
    case Submit(_, _) => ShutdownEntryOrExit(s, step, w);
    case TakeReturns(_) => ShutdownEntryOrExit(s, step, w);
    case StopJoins => ShutdownEntryOrExit(s, step, w);
    case _ => ShutdownWorkerStep(s, step, w);
  }

  lemma ShutdownEntryOrExit(s: State, step: Step, w: Tid)
    requires Placement(s) && StopProgress(s) && ShuttingDown(s) && Enabled(s, step) && w in s.workers
    requires step.Submit? || step.TakeReturns? || step.StopJoins?
    ensures ShuttingDown(Apply(s, step)) && Closer(s, Apply(s, step), w, Actor(s, step))
  {
    EndSetByGiveUp(s.queue, QueuePart(s, step).value);
  }

  lemma ShutdownWorkerStep(s: State, step: Step, w: Tid)
    requires Placement(s) && StopProgress(s) && ShuttingDown(s) && Enabled(s, step) && w in s.workers
    requires !step.QueueStep? && !step.Submit? && !step.TakeReturns? && !step.StopJoins?
    ensures ShuttingDown(Apply(s, step)) && Closer(s, Apply(s, step), w, Actor(s, step))
  {
    assert Apply(s, step).queue == s.queue;
  }

  lemma ShutdownQueueStep(s: State, q: Q.Step<Task>, w: Tid)
    requires Placement(s) && ShuttingDown(s) && Enabled(s, QueueStep(q)) && w in s.workers
    ensures ShuttingDown(ApplyQueueStep(s, q)) && Closer(s, ApplyQueueStep(s, q), w, q.t)
  {
    EndSetByGiveUp(s.queue, q);
    if q.t != w {
      AwakeUntouched(s.queue, q, w);
    } else {
      ShutdownTakePhases(s.queue, q);
    }
  }

  lemma ShutdownTakePhases(q: Q.State<Task>, step: Q.Step<Task>)
    requires Q.Enabled(q, step) && Q.GivenUp(q) && !step.Release?
    requires InTake(q.pcs[step.t])
    ensures var pc' := Q.Apply(q, step).pcs[step.t];
            match q.pcs[step.t]
            case TakeLocked => pc' == Q.Leaving(Q.Default)
            case TakeNotify(_) => pc'.Leaving?
            case TakeEntry => pc'.TakeLocked?
            case TakeSignalled => pc'.TakeLocked?
            case _ => false
  {
  }

  /**
   During shutdown a worker that has not exited can take a step at once, or it wants the lock
   while another thread holds it, and that thread can move on.
   */
  lemma ShutdownNeverBlocks(s: State, w: Tid) returns (step: Step)
    requires Inv(s) && ShuttingDown(s) && w in s.workers && !s.workers[w].Exited?
    ensures Enabled(s, step)
    ensures Actor(s, step) == w || (s.queue.lock == Some(Actor(s, step)) && Q.WantsLock(s.queue.pcs[w]))
  {
    match s.workers[w]
    case Begin => step := Loop(w);
    case Check => step := Loop(w);
    case Holding(_) => step := IncBusy(w);
    case Busy(_) => step := StartTask(w);
    case Running(_) => step := EndTask(w);
    case Ending => step := DecBusy(w);
    case Taking =>
      if s.queue.lock.None? {
        step := QueueStep(Q.Acquire(w));
      } else {
        step := HolderMoves(s, s.queue.lock.value);
      }
  }

  /** A thread that a notify may wake. */
  lemma SomeWoken(q: Q.State<Task>, notEmpty: bool) returns (woken: Option<Tid>)
    ensures Q.Wakes(q, notEmpty, woken)
  {
    if u :| u in q.pcs && (if notEmpty then q.pcs[u].TakeAsleep? else q.pcs[u].PutAsleep?) {
      woken := Some(u);
    } else {
      woken := None;
    }
  }

  /**
   The thread inside the critical section can always take its next step, before, during and after
   the shutdown.
   */
  lemma HolderMoves(s: State, t: Tid) returns (step: Step)
    requires Inv(s) && s.queue.lock == Some(t)
    ensures Enabled(s, step) && Actor(s, step) == t
  {
    assert t in s.queue.pcs && Q.InSection(s.queue.pcs[t]);
    match s.queue.pcs[t]
    case PutNotify =>
      var woken := SomeWoken(s.queue, true);
      step := QueueStep(Q.Notify(t, woken));
    case TakeNotify(_) =>
      var woken := SomeWoken(s.queue, false);
      step := QueueStep(Q.Notify(t, woken));
    case Leaving(_) =>
      if t in s.workers { step := TakeReturns(t); }
      else if t == s.stopper { step := StopJoins; }
      else { step := QueueStep(Q.Release(t)); }
    case _ => step := QueueStep(Q.Run(t));
  }

  /** The steps a thread inside the critical section takes at most before it unlocks. */
  function StepsInside(pc: Q.Pc<Task>): nat
  {
    match pc
    case GiveUpLocked => 4
    case GiveUpTakers => 3
    case PutLocked(_) => 3
    case TakeLocked => 3
    case GiveUpPutters => 2
    case PutNotify => 2
    case TakeNotify(_) => 2
    case _ => 1
  }

  /** Every step of the thread inside the critical section brings it closer to the unlock. */
  lemma HolderLeaves(q: Q.State<Task>, step: Q.Step<Task>)
    requires Q.Enabled(q, step) && step.t in q.pcs && Q.InSection(q.pcs[step.t])
    ensures var q' := Q.Apply(q, step);
            q'.lock.None? || (step.t in q'.pcs && StepsInside(q'.pcs[step.t]) < StepsInside(q.pcs[step.t]))
  {
  }

  // ---------- While the pool runs ----------

  /** There are workers, and none of them has left the loop before running_ was cleared. */
  ghost predicate WorkersStay(s: State)
  {
    s.workers.Keys != {} && forall w :: w in s.workers && s.workers[w].Exited? ==> !s.running
  }

  lemma StepKeepsWorkers(s: State, step: Step)
    requires Enabled(s, step) && WorkersStay(s)
    ensures WorkersStay(Apply(s, step)) && Apply(s, step).workers.Keys == s.workers.Keys
    ensures Apply(s, step).running ==> s.running
  {
  }

  lemma {:induction false} WorkersStayAlways(ss: seq<State>, steps: seq<Step>, capacity: nat, i: nat)
    requires Execution(ss, steps, capacity) && i < |ss|
    ensures WorkersStay(ss[i])
  {
    if i > 0 {
      WorkersStayAlways(ss, steps, capacity, i - 1);
      StepKeepsWorkers(ss[i - 1], steps[i - 1]);
    }
  }

  /** Main result: in every run a worker has left its loop only if stop has cleared running_. */
  lemma ExitsOnlyAfterStop(ss: seq<State>, steps: seq<Step>, capacity: nat, i: nat, w: Tid)
    requires Execution(ss, steps, capacity) && i < |ss| && w in ss[i].workers && ss[i].workers[w].Exited?
    ensures !ss[i].running && !ss[i].stop.NotCalled?
  {
    WorkersStayAlways(ss, steps, capacity, i);
    InvAlways(ss, steps, capacity, i);
  }

  /** A worker begins at the test of running_, and while it is set the test leads into take. */
  lemma EntersTake(s: State, w: Tid)
    requires w in s.workers && (s.workers[w].Begin? || s.workers[w].Check?) && w in s.queue.pcs
    ensures Enabled(s, Loop(w))
    ensures s.workers[w].Begin? ==> Apply(s, Loop(w)) == s.(workers := s.workers[w := Check])
    ensures s.workers[w].Check? && s.running ==>
              var s' := Apply(s, Loop(w));
              s'.workers == s.workers[w := Taking] && s'.queue == s.queue.(pcs := s.queue.pcs[w := Q.TakeEntry])
    ensures s.workers[w].Check? && !s.running ==> Apply(s, Loop(w)) == s.(workers := s.workers[w := Exited])
  {
  }

  /** run() hands its task to put, and a worker works on the task that take has returned. */
  lemma TaskGoesThrough(s: State, t: Tid, task: Task, w: Tid, got: Task)
    ensures Enabled(s, Submit(t, task)) ==>
              Apply(s, Submit(t, task)).queue.pcs == s.queue.pcs[t := Q.PutEntry(task)]
    ensures Enabled(s, TakeReturns(w)) && s.queue.pcs[w] == Q.Leaving(Q.Got(got)) ==>
              Apply(s, TakeReturns(w)).workers == s.workers[w := Holding(got)]
    ensures Enabled(s, IncBusy(w)) && s.workers[w] == Holding(got) ==>
              Apply(s, IncBusy(w)).workers == s.workers[w := Busy(got)]
    ensures Enabled(s, StartTask(w)) && s.workers[w] == Busy(got) ==>
              Apply(s, StartTask(w)).workers == s.workers[w := if got.Task? then Running(got) else Ending]
  {
  }

  lemma SubmittedKept(s: State, step: Step, t: Tid, task: Task)
    requires Inv(s) && Enabled(s, step)
    requires t in Apply(s, step).queue.pcs && Q.Carries(Apply(s, step).queue.pcs[t], task)
    ensures t in s.queue.pcs
    ensures step == Submit(t, task) || (Q.Carries(s.queue.pcs[t], task) && !(step.Submit? && step.t == t))
  {
    var q := QueuePart(s, step);
    QueueRefines(s, step);
    if q.Some? {
      Q.ArgumentKept(s.queue, q.value, t, task);
    }
  }

  lemma {:induction false} SubmittedBy(ss: seq<State>, steps: seq<Step>, capacity: nat, i: nat, t: Tid, task: Task)
    returns (j: nat)
    requires Execution(ss, steps, capacity) && i < |ss| && t in ss[i].queue.pcs && Q.Carries(ss[i].queue.pcs[t], task)
    ensures j < i && steps[j] == Submit(t, task)
    ensures forall k :: j < k < i ==> !(steps[k].Submit? && steps[k].t == t)
  {
    assert i > 0;
    InvAlways(ss, steps, capacity, i - 1);
    SubmittedKept(ss[i - 1], steps[i - 1], t, task);
    j := i - 1;
    if steps[j] != Submit(t, task) {
      j := SubmittedBy(ss, steps, capacity, i - 1, t, task);
    }
  }

  lemma OnlyPutAccepts(s: State, step: Step)
    requires Inv(s) && Enabled(s, step) && Apply(s, step).queue.accepted != s.queue.accepted
    ensures step.QueueStep? && step.step.Run?
    ensures var t := step.step.t;
            && t in s.queue.pcs && s.queue.pcs[t].PutLocked?
            && Apply(s, step).queue.accepted == s.queue.accepted + [s.queue.pcs[t].x]
            && Apply(s, step).queue.items == s.queue.items + [s.queue.pcs[t].x]
  {
    var q := QueuePart(s, step);
    QueueRefines(s, step);
    Q.OnlyPutAndTake(s.queue, q.value);
    Q.PutStores(s.queue, q.value.t, s.queue.pcs[q.value.t].x);
  }

  /** Main result: every task that enters the queue of a pool is the one its thread called run() with last. */
  lemma AcceptsTheSubmitted(ss: seq<State>, steps: seq<Step>, capacity: nat, i: nat) returns (j: nat)
    requires Execution(ss, steps, capacity) && i < |steps| && ss[i + 1].queue.accepted != ss[i].queue.accepted
    ensures j < i && steps[j].Submit? && steps[i].QueueStep? && steps[i].step.t == steps[j].t
    ensures forall k :: j < k < i ==> !(steps[k].Submit? && steps[k].t == steps[j].t)
    ensures ss[i + 1].queue.accepted == ss[i].queue.accepted + [steps[j].task]
    ensures ss[i + 1].queue.items == ss[i].queue.items + [steps[j].task]
  {
    InvAlways(ss, steps, capacity, i);
    OnlyPutAccepts(ss[i], steps[i]);
    var t := steps[i].step.t;
    j := SubmittedBy(ss, steps, capacity, i, t, ss[i].queue.pcs[t].x);
  }

  /** A step of a worker, or of a thread inside the queue that has not just woken up for no reason. */
  predicate WorkStep(step: Step)
  {
    || (step.QueueStep? && !step.step.SpuriousWakeUp?)
    || step.Loop? || step.TakeReturns? || step.IncBusy? || step.StartTask? || step.EndTask? || step.DecBusy?
  }

  ghost predicate SleepsInTake(s: State, w: Tid)
  {
    w in s.workers && s.workers[w].Taking? && w in s.queue.pcs && s.queue.pcs[w].TakeAsleep?
  }

  /** A worker that does not sleep moves, or waits for a lock whose holder moves. */
  lemma AwakeWorkerMoves(s: State, w: Tid) returns (step: Step)
    requires Inv(s) && s.running && w in s.workers && !s.workers[w].Exited? && !SleepsInTake(s, w)
    ensures Enabled(s, step) && WorkStep(step)
  {
    match s.workers[w]
    case Begin => step := Loop(w);
    case Check => step := Loop(w);
    case Holding(_) => step := IncBusy(w);
    case Busy(_) => step := StartTask(w);
    case Running(_) => step := EndTask(w);
    case Ending => step := DecBusy(w);
    case Taking =>
      if s.queue.lock.None? {
        step := QueueStep(Q.Acquire(w));
      } else {
        step := HolderMoves(s, s.queue.lock.value);
        assert s.queue.pcs[s.stopper].Idle?;
      }
  }

  /** When every worker sleeps and the lock is free, nothing is queued. */
  lemma AllAsleepMeansEmpty(s: State)
    requires Inv(s) && s.workers.Keys != {} && s.queue.lock.None?
    requires forall w :: w in s.workers ==> SleepsInTake(s, w)
    ensures s.queue.items == []
  {
    var w :| w in s.workers;
    assert SleepsInTake(s, w);
    forall t | t in s.queue.pcs ensures !Q.SignalledTake(s.queue.pcs[t]) {
      if t in s.workers {
        assert SleepsInTake(s, t);
      }
    }
    CountZero(s.queue.pcs, Q.SignalledTake);
    assert s.queue.pcs[w].TakeAsleep?;
  }

  /**
   Main result: while running_ is set the pool works. In every run, as long as a task is queued or
   some worker is not asleep in take, a step that is no mere spurious wake-up is possible.
   */
  lemma RunningPoolWorks(ss: seq<State>, steps: seq<Step>, capacity: nat, i: nat) returns (step: Step)
    requires Execution(ss, steps, capacity) && i < |ss| && ss[i].running
    requires ss[i].queue.items != [] || exists w :: w in ss[i].workers && !SleepsInTake(ss[i], w)
    ensures Enabled(ss[i], step) && WorkStep(step)
  {
    InvAlways(ss, steps, capacity, i);
    WorkersStayAlways(ss, steps, capacity, i);
    var s := ss[i];
    if w :| w in s.workers && !SleepsInTake(s, w) {
      step := AwakeWorkerMoves(s, w);
    } else if s.queue.lock.Some? {
      step := HolderMoves(s, s.queue.lock.value);
      assert s.queue.pcs[s.stopper].Idle?;
    } else {
      AllAsleepMeansEmpty(s);
      assert false;
    }
  }

  /** So a running pool at rest has no task left, and all its workers wait for one. */
  lemma AtRestAllDone(ss: seq<State>, steps: seq<Step>, capacity: nat, i: nat)
    requires Execution(ss, steps, capacity) && i < |ss| && ss[i].running
    requires forall step :: WorkStep(step) ==> !Enabled(ss[i], step)
    ensures ss[i].queue.items == [] && forall w :: w in ss[i].workers ==> SleepsInTake(ss[i], w)
  {
    if ss[i].queue.items != [] || exists w :: w in ss[i].workers && !SleepsInTake(ss[i], w) {
      var step := RunningPoolWorks(ss, steps, capacity, i);
      assert false;
    }
  }

  // ---------- From the call of stop to its return ----------

  /** The steps of its own that stop still has to take. */
  function StopLeft(s: State): nat
    requires s.stopper in s.queue.pcs
  {
    match s.stop
    case NotCalled => 8
    case Cleared => 7
    case GivingUp =>
      (match s.queue.pcs[s.stopper]
       case GiveUpEntry => 6
       case GiveUpLocked => 5
       case GiveUpTakers => 4
       case GiveUpPutters => 3
       case _ => 2)
    case Joining => 1
    case Returned => 0
  }

  /**
   Main result: every step of the stopping thread brings stop closer to its return, and no step of
   another thread sets it back.
   */
  lemma StopTerminates(s: State, step: Step)
    requires Inv(s) && Enabled(s, step)
    ensures StopCloser(s, Apply(s, step), Actor(s, step))
  {
    match step
    case QueueStep(q) => StopTerminatesInQueue(s, q);
    case _ => StopTerminatesOutside(s, step);
  }

  ghost predicate StopCloser(s: State, s': State, actor: Tid)
  {
    && s'.stopper == s.stopper && s.stopper in s.queue.pcs && s.stopper in s'.queue.pcs
    && if actor == s.stopper then StopLeft(s') < StopLeft(s) else StopLeft(s') == StopLeft(s)
  }

  lemma StopTerminatesInQueue(s: State, q: Q.Step<Task>)
    requires Placement(s) && StopProgress(s) && Enabled(s, QueueStep(q))
    ensures StopCloser(s, ApplyQueueStep(s, q), q.t)
  {
    if q.t != s.stopper {
      AwakeUntouched(s.queue, q, s.stopper);
    } else {
      assert InGiveUp(s.queue.pcs[q.t]);
      GiveUpPhases(s.queue, q);
    }
  }

  lemma StopTerminatesOutside(s: State, step: Step)
    requires Placement(s) && StopProgress(s) && Enabled(s, step) && !step.QueueStep?
    ensures StopCloser(s, Apply(s, step), Actor(s, step))
  {
  }

  /** Worker w is not done, and it moves itself or waits for the lock that the actor holds. */
  ghost predicate WorkerGoesOn(s: State, w: Tid, actor: Tid)
    requires w in s.workers
  {
    && !s.workers[w].Exited?
    && (actor == w || (w in s.queue.pcs && Q.WantsLock(s.queue.pcs[w]) && s.queue.lock == Some(actor)))
  }

  /**
   Main result: from its call to its return stop is never blocked for good. It can take a step, or
   it waits for the lock and the holder can move, or it joins a worker that is not done and that
   worker, or the holder of the lock the worker wants, can move. With every worker done it returns.
   */
  lemma StopNeverBlocks(s: State) returns (step: Step)
    requires Inv(s) && !s.stop.NotCalled? && !s.stop.Returned?
    ensures Enabled(s, step)
    ensures Actor(s, step) == s.stopper
            || (s.queue.pcs[s.stopper].GiveUpEntry? && s.queue.lock == Some(Actor(s, step)))
            || (s.stop.Joining? && exists w :: w in s.workers && WorkerGoesOn(s, w, Actor(s, step)))
    ensures s.stop.Joining? && (forall w :: w in s.workers ==> s.workers[w].Exited?) ==> step == StopReturns
  {
    match s.stop
    case Cleared => step := StopGivesUp;
    case GivingUp =>
      if s.queue.pcs[s.stopper].GiveUpEntry? {
        if s.queue.lock.None? {
          step := QueueStep(Q.Acquire(s.stopper));
        } else {
          step := HolderMoves(s, s.queue.lock.value);
        }
      } else {
        assert s.queue.lock == Some(s.stopper);
        step := HolderMoves(s, s.stopper);
      }
    case Joining =>
      if w :| w in s.workers && !s.workers[w].Exited? {
        step := ShutdownNeverBlocks(s, w);
      } else {
        step := StopReturns;
      }
  }
}
