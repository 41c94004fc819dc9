/**
 The event loop protocol of src/core/EventLoop.cpp: one loop thread and any number of other
 threads that queue functors or end the loop. Every access to shared state is a step of its own:
 the test of state_, the push under the lock, the write to the eventfd, the read of quit_.
 */
module EventLoop {
  import opened Options

  type Tid = nat
  type Functor = nat

  datatype LoopState = Ready | Polling | IOHandling | PendingHandling | End

  /** What epoll reports: the eventfd, or another descriptor whose callbacks run. */
  datatype Event = WakeUpEvent | OtherEvent

  /** Where the loop thread stands inside loop(). */
  datatype LoopPc =
    | BeforeLoop
    | AtCheck                      // about to read quit_
    | AtEnter                      // has read quit_ == false
    | AtPoll                       // inside epoll_wait
    | AtEvents(events: seq<Event>) // the events still to be dispatched
    | AtSwap
    | AtBatch                      // running the functors swapped out
    | AtEnd
    | Done

  /** Where a thread stands inside queueInLoop, endLoop or wakeUp; pushed tells the first two apart. */
  datatype Pc = Idle | Checked(f: Functor) | Pushed | QuitSet | Waking(pushed: bool)

  /** accepted, executed and dropped record functors in order; quitAt is the iteration in which quit_ was set. */
  datatype State = State(
    state: LoopState,
    quit: bool,
    iteration: nat,
    pending: seq<Functor>,
    batch: seq<Functor>,
    eventfd: nat,
    pc: LoopPc,
    loopThread: Tid,
    pcs: map<Tid, Pc>,
    accepted: seq<Functor>,
    executed: seq<Functor>,
    dropped: seq<Functor>,
    quitAt: Option<nat>)

  datatype Step =
    | QueueCheck(t: Tid, f: Functor)
    | QueuePush(t: Tid)
    | WakeDecide(t: Tid)
    | EndSet(t: Tid)
    | EndDecide(t: Tid)
    | WakeWrite(t: Tid)
    | Start
    | CheckQuit
    | Enter
    | PollReturns(events: seq<Event>)
    | HandleEvent
    | EventsDone
    | Swap
    | RunFunctor
    | BatchDone
    | Clear

  /** The largest value an eventfd holds; a write beyond it fails and changes nothing. */
  const EVENTFD_MAX: nat := 0xffff_ffff_ffff_fffe

  function Written(eventfd: nat): nat
  {
    if eventfd < EVENTFD_MAX then eventfd + 1 else eventfd
  }

  // ---------- The transitions ----------

  ghost predicate Init(s: State)
  {
    && s.state.Ready? && !s.quit && s.iteration == 0 && s.pending == [] && s.batch == [] && s.eventfd == 0
    && s.pc.BeforeLoop? && s.loopThread in s.pcs && (forall t :: t in s.pcs ==> s.pcs[t].Idle?)
    && s.accepted == [] && s.executed == [] && s.dropped == [] && s.quitAt.None?
  }

  /** Code of the user may run on the loop thread. */
  predicate UserCode(pc: LoopPc)
  {
    pc.BeforeLoop? || pc.AtEvents? || pc.AtBatch?
  }

  /** t is free to call into the loop. */
  predicate MayCall(s: State, t: Tid)
  {
    t in s.pcs && s.pcs[t].Idle? && (t == s.loopThread ==> UserCode(s.pc))
  }

  predicate LoopMoves(s: State)
  {
    s.loopThread in s.pcs && s.pcs[s.loopThread].Idle?
  }

  predicate Enabled(s: State, step: Step)
  {
    match step
    case QueueCheck(t, _) => MayCall(s, t) && !s.state.End?
    case QueuePush(t) => t in s.pcs && s.pcs[t].Checked?
    case WakeDecide(t) => t in s.pcs && s.pcs[t].Pushed?
    // Other threads end the loop only after it has left Ready.
    case EndSet(t) => MayCall(s, t) && (t == s.loopThread || !s.state.Ready?)
    case EndDecide(t) => t in s.pcs && s.pcs[t].QuitSet?
    case WakeWrite(t) => t in s.pcs && s.pcs[t].Waking?
    case Start => LoopMoves(s) && s.pc.BeforeLoop?
    case CheckQuit => LoopMoves(s) && s.pc.AtCheck?
    case Enter => LoopMoves(s) && s.pc.AtEnter?
    case PollReturns(events) => LoopMoves(s) && s.pc.AtPoll? && (WakeUpEvent in events ==> s.eventfd > 0)
    case HandleEvent => LoopMoves(s) && s.pc.AtEvents? && s.pc.events != []
    case EventsDone => LoopMoves(s) && s.pc.AtEvents? && s.pc.events == []
    case Swap => LoopMoves(s) && s.pc.AtSwap?
    case RunFunctor => LoopMoves(s) && s.pc.AtBatch? && s.batch != []
    case BatchDone => LoopMoves(s) && s.pc.AtBatch? && s.batch == []
    case Clear => LoopMoves(s) && s.pc.AtEnd?
  }

  function Goto(s: State, t: Tid, pc: Pc): State
  {
    s.(pcs := s.pcs[t := pc])
  }

  /** queueInLoop wakes the loop unless it will look at the functors anyway; wakeUp does nothing after End. */
  predicate NeedsWakeUp(s: State, t: Tid)
  {
    (t != s.loopThread || s.state.PendingHandling? || s.state.Ready?) && !s.state.End?
  }

  function Apply(s: State, step: Step): State
    requires Enabled(s, step)
  {
    match step
    case QueueCheck(t, f) => Goto(s, t, Checked(f))
    case QueuePush(t) =>
      Goto(s, t, Pushed).(pending := s.pending + [s.pcs[t].f], accepted := s.accepted + [s.pcs[t].f])
    case WakeDecide(t) => Goto(s, t, if NeedsWakeUp(s, t) then Waking(true) else Idle)
    case EndSet(t) =>
      Goto(s, t, QuitSet).(quit := true, quitAt := if s.quit then s.quitAt else Some(s.iteration))
    case EndDecide(t) =>
      if !s.state.Ready? && !s.state.End? then Goto(s, t, Waking(false))
      else if s.state.Ready? && s.pc.BeforeLoop? then Goto(s, t, Idle).(pc := AtCheck)
      else Goto(s, t, Idle)
    case WakeWrite(t) => Goto(s, t, Idle).(eventfd := Written(s.eventfd))
    case Start => s.(pc := AtCheck)
    case CheckQuit => if s.quit then s.(pc := AtEnd, state := End) else s.(pc := AtEnter)
    case Enter => s.(pc := AtPoll, iteration := s.iteration + 1, state := Polling)
    case PollReturns(events) => s.(pc := AtEvents(events), state := IOHandling)
    case HandleEvent =>
      s.(pc := AtEvents(s.pc.events[1..]), eventfd := if s.pc.events[0].WakeUpEvent? then 0 else s.eventfd)
    case EventsDone => s.(pc := AtSwap, state := PendingHandling)
    case Swap => s.(pc := AtBatch, batch := s.pending, pending := [])
    case RunFunctor => s.(executed := s.executed + [s.batch[0]], batch := s.batch[1..])
    case BatchDone => s.(pc := AtCheck)
    case Clear => s.(pc := Done, dropped := s.dropped + s.pending, pending := [])
  }

  ghost predicate Run(ss: seq<State>, steps: seq<Step>)
  {
    && |ss| == |steps| + 1
    && forall i {:trigger steps[i]} :: 0 <= i < |steps| ==>
         Enabled(ss[i], steps[i]) && ss[i + 1] == Apply(ss[i], steps[i])
  }

  ghost predicate Execution(ss: seq<State>, steps: seq<Step>)
  {
    Run(ss, steps) && Init(ss[0])
  }

  // ---------- The invariant ----------

  /** The thread has pushed a functor and not yet written the eventfd. */
  predicate AboutToWake(pc: Pc) { pc.Pushed? || (pc.Waking? && pc.pushed) }
  predicate AboutToWakeForQuit(pc: Pc) { pc.QuitSet? || pc.Waking? }

  /** The loop will not look at the pending functors again before it polls. */
  predicate PastSwap(pc: LoopPc)
  {
    pc.BeforeLoop? || pc.AtCheck? || pc.AtEnter? || pc.AtPoll? || pc.AtBatch?
  }

  ghost predicate WakeUpUnderWay(s: State)
  {
    PastSwap(s.pc) && s.pending != [] ==>
      s.eventfd > 0 || exists t :: t in s.pcs && AboutToWake(s.pcs[t])
  }

  ghost predicate QuitNoticed(s: State)
  {
    s.quit && (s.pc.AtEnter? || s.pc.AtPoll?) ==>
      s.eventfd > 0 || exists t :: t in s.pcs && AboutToWakeForQuit(s.pcs[t])
  }

  ghost predicate PhaseAgrees(s: State)
  {
    && (match s.pc
        case BeforeLoop => s.state.Ready?
        case AtCheck => s.state.Ready? || s.state.PendingHandling?
        case AtEnter => s.state.Ready? || s.state.PendingHandling?
        case AtPoll => s.state.Polling?
        case AtEvents(_) => s.state.IOHandling?
        case AtSwap => s.state.PendingHandling?
        case AtBatch => s.state.PendingHandling?
        case AtEnd => s.state.End?
        case Done => s.state.End?)
    && s.loopThread in s.pcs
    && (!UserCode(s.pc) ==> s.pcs[s.loopThread].Idle?)
    && (s.state.Ready? ==> forall t :: t in s.pcs && t != s.loopThread ==> !s.pcs[t].QuitSet?)
  }

  ghost predicate FunctorsInOrder(s: State)
  {
    && s.accepted == s.executed + s.dropped + s.batch + s.pending
    && (s.batch != [] ==> s.pc.AtBatch?)
    && (s.dropped != [] ==> s.pc.Done?)
  }

  ghost predicate IterationsBounded(s: State)
  {
    && (s.quit <==> s.quitAt.Some?)
    && (s.quit ==> s.quitAt.value <= s.iteration <= s.quitAt.value + 1)
    && (s.quit && s.pc.AtEnter? ==> s.iteration == s.quitAt.value)
    && (s.state.End? ==> s.quit)
  }

  ghost predicate Inv(s: State)
  {
    PhaseAgrees(s) && WakeUpUnderWay(s) && QuitNoticed(s) && FunctorsInOrder(s) && IterationsBounded(s)
  }

  /** A promise to write the eventfd survives the steps of other threads. */
  lemma PromiseKept(s: State, s': State, t: Tid)
    requires t in s.pcs && t in s'.pcs && s'.pcs == s.pcs[t := s'.pcs[t]]
    ensures (exists u :: u in s.pcs && AboutToWake(s.pcs[u])) ==>
              AboutToWake(s.pcs[t]) || exists u :: u in s'.pcs && AboutToWake(s'.pcs[u])
    ensures (exists u :: u in s.pcs && AboutToWakeForQuit(s.pcs[u])) ==>
              AboutToWakeForQuit(s.pcs[t]) || exists u :: u in s'.pcs && AboutToWakeForQuit(s'.pcs[u])
    ensures AboutToWake(s'.pcs[t]) ==> exists u :: u in s'.pcs && AboutToWake(s'.pcs[u])
    ensures AboutToWakeForQuit(s'.pcs[t]) ==> exists u :: u in s'.pcs && AboutToWakeForQuit(s'.pcs[u])
  {
    if u :| u in s.pcs && AboutToWake(s.pcs[u]) {
      assert u == t || AboutToWake(s'.pcs[u]);
    }
    if u :| u in s.pcs && AboutToWakeForQuit(s.pcs[u]) {
      assert u == t || AboutToWakeForQuit(s'.pcs[u]);
    }
  }

  lemma CallKeepsInv(s: State, step: Step)
    requires Inv(s) && Enabled(s, step)
    requires step.QueueCheck? || step.WakeDecide? || step.WakeWrite?
    ensures Inv(Apply(s, step))
  {
    PromiseKept(s, Apply(s, step), step.t);
  }

  lemma EndCallKeepsInv(s: State, step: Step)
    requires Inv(s) && Enabled(s, step) && (step.EndSet? || step.EndDecide?)
    ensures Inv(Apply(s, step))
  {
    PromiseKept(s, Apply(s, step), step.t);
  }

  lemma PushKeepsInv(s: State, t: Tid)
    requires Inv(s) && Enabled(s, QueuePush(t))
    ensures Inv(Apply(s, QueuePush(t)))
  {
    PromiseKept(s, Apply(s, QueuePush(t)), t);
  }

  lemma LoopStepKeepsInv(s: State, step: Step)
    requires Inv(s) && Enabled(s, step)
    requires !step.QueueCheck? && !step.QueuePush? && !step.WakeDecide?
    requires !step.EndSet? && !step.EndDecide? && !step.WakeWrite?
    ensures Inv(Apply(s, step))
  {
    assert Apply(s, step).pcs == s.pcs;
  }

  lemma StepKeepsInv(s: State, step: Step)
    requires Inv(s) && Enabled(s, step)
    ensures Inv(Apply(s, step))
  {
    match step
    case QueueCheck(_, _) => CallKeepsInv(s, step);
    case WakeDecide(_) => CallKeepsInv(s, step);
    case WakeWrite(_) => CallKeepsInv(s, step);
    case EndSet(_) => EndCallKeepsInv(s, step);
    case EndDecide(_) => EndCallKeepsInv(s, step);
    case QueuePush(t) => PushKeepsInv(s, t);
    case _ => LoopStepKeepsInv(s, step);
  }

  lemma {:induction false} InvAlways(ss: seq<State>, steps: seq<Step>, i: nat)
    requires Execution(ss, steps) && i < |ss|
    ensures Inv(ss[i])
  {
    if i > 0 {
      InvAlways(ss, steps, i - 1);
      StepKeepsInv(ss[i - 1], steps[i - 1]);
    }
  }

  // ---------- What holds over whole runs ----------

  /**
   Main result, no lost wakeup: when the loop polls while functors are pending, epoll_wait returns
   because the eventfd is readable, or another thread is between its push and its write.
   */
  lemma NoLostWakeUp(ss: seq<State>, steps: seq<Step>, i: nat)
    requires Execution(ss, steps) && i < |ss| && ss[i].pc.AtPoll? && ss[i].pending != []
    ensures ss[i].eventfd > 0 || exists t :: t in ss[i].pcs && t != ss[i].loopThread && AboutToWake(ss[i].pcs[t])
  {
    InvAlways(ss, steps, i);
    if u :| u in ss[i].pcs && AboutToWake(ss[i].pcs[u]) {
      assert u != ss[i].loopThread;
    }
  }

  /** The promise is kept: a thread that has pushed, or set quit_, while the loop polls does write the eventfd. */
  lemma PromiseIsKept(s: State, t: Tid)
    requires Inv(s) && s.pc.AtPoll? && t in s.pcs && t != s.loopThread
    requires AboutToWake(s.pcs[t]) || AboutToWakeForQuit(s.pcs[t])
    ensures match s.pcs[t]
            case Pushed => Enabled(s, WakeDecide(t)) && Apply(s, WakeDecide(t)).pcs[t] == Waking(true)
            case QuitSet => Enabled(s, EndDecide(t)) && Apply(s, EndDecide(t)).pcs[t].Waking?
            case _ => Enabled(s, WakeWrite(t)) && Apply(s, WakeWrite(t)).eventfd > 0
  {
  }

  predicate LoopStep(step: Step)
  {
    || step.Start? || step.CheckQuit? || step.Enter? || step.PollReturns? || step.HandleEvent? || step.EventsDone?
    || step.Swap? || step.RunFunctor? || step.BatchDone? || step.Clear?
  }

  /** While the loop polls, only its own return from epoll_wait can take the eventfd's value away. */
  lemma ReadableUntilPollReturns(s: State, step: Step)
    requires Inv(s) && Enabled(s, step) && s.pc.AtPoll? && s.eventfd > 0 && !step.PollReturns?
    ensures Apply(s, step).pc.AtPoll? && Apply(s, step).eventfd > 0
  {
  }

  // ---------- The loop ends promptly ----------

  /** The phases of loop() still ahead of the loop thread once quit_ is set. */
  function Phase(pc: LoopPc): nat
  {
    match pc
    case BeforeLoop => 8
    case AtEnter => 7
    case AtPoll => 6
    case AtEvents(_) => 5
    case AtSwap => 4
    case AtBatch => 3
    case AtCheck => 2
    case AtEnd => 1
    case Done => 0
  }

  /** The events or functors still to be handled in the current phase. */
  function Remaining(s: State): nat
  {
    match s.pc
    case AtEvents(events) => |events|
    case AtBatch => |s.batch|
    case _ => 0
  }

  /**
   Main result: once quit_ is set, every step of the loop thread strictly decreases the pair
   (Phase, Remaining), so the loop runs to End without polling more than once again.
   */
  lemma QuitIsPrompt(s: State, step: Step)
    requires Inv(s) && Enabled(s, step) && s.quit
    ensures var s' := Apply(s, step);
            && s'.quit
            && (LoopStep(step) ==>
                  Phase(s'.pc) < Phase(s.pc) || (Phase(s'.pc) == Phase(s.pc) && Remaining(s') < Remaining(s)))
            && (!LoopStep(step) ==>
                  Phase(s'.pc) < Phase(s.pc) || (s'.pc == s.pc && Remaining(s') == Remaining(s)))
  {
  }

  /** Main result: at most one iteration begins after the one in which quit_ was set. */
  lemma AtMostOneMoreIteration(ss: seq<State>, steps: seq<Step>, i: nat)
    requires Execution(ss, steps) && i < |ss| && ss[i].quit
    ensures ss[i].quitAt.Some? && ss[i].quitAt.value <= ss[i].iteration <= ss[i].quitAt.value + 1
  {
    InvAlways(ss, steps, i);
  }

  lemma QuitStays(s: State, step: Step)
    requires Enabled(s, step) && s.quit
    ensures Apply(s, step).quit && Apply(s, step).quitAt == s.quitAt
  {
  }

  /** quitAt is the iteration in which quit_ was first set. */
  lemma {:induction false} QuitAtIsFixed(ss: seq<State>, steps: seq<Step>, i: nat, j: nat)
    requires Execution(ss, steps) && i <= j < |ss|
    ensures ss[i].quit ==> ss[j].quit && ss[j].quitAt == ss[i].quitAt
  {
    if i < j {
      QuitAtIsFixed(ss, steps, i, j - 1);
      if ss[i].quit {
        QuitStays(ss[j - 1], steps[j - 1]);
      }
    }
  }

  /**
   Main result: once quit_ is set and loop() has been entered, the loop is never stuck. The loop
   thread can move without waiting for any descriptor but the eventfd, or another thread is on
   its way to write the eventfd and can move.
   */
  lemma QuitNeverBlocks(s: State) returns (step: Step)
    requires Inv(s) && s.quit && !s.pc.Done?
    ensures Enabled(s, step)
    ensures LoopStep(step) ==> (step.PollReturns? ==> s.eventfd > 0 && step.events == [WakeUpEvent])
    ensures !LoopStep(step) && s.pcs[s.loopThread].Idle? ==>
              && s.pc.AtPoll? && s.eventfd == 0
              && step.t != s.loopThread && (step.EndDecide? || step.WakeWrite?)
    ensures !LoopStep(step) && !s.pcs[s.loopThread].Idle? ==>
              step.t == s.loopThread && !step.QueueCheck? && !step.EndSet?
  {
    var t := s.loopThread;
    match s.pcs[t]
    case Checked(_) => step := QueuePush(t);
    case Pushed => step := WakeDecide(t);
    case QuitSet => step := EndDecide(t);
    case Waking(_) => step := WakeWrite(t);
    case Idle =>
      match s.pc {
        case BeforeLoop => step := Start;
        case AtCheck => step := CheckQuit;
        case AtEnter => step := Enter;
        case AtPoll =>
          if s.eventfd > 0 {
            step := PollReturns([WakeUpEvent]);
          } else {
            var u :| u in s.pcs && AboutToWakeForQuit(s.pcs[u]);
            step := if s.pcs[u].QuitSet? then EndDecide(u) else WakeWrite(u);
          }
        case AtEvents(events) => step := if events == [] then EventsDone else HandleEvent;
        case AtSwap => step := Swap;
        case AtBatch => step := if s.batch == [] then BatchDone else RunFunctor;
        case AtEnd => step := Clear;
      }
  }

  // ---------- Order of the functors ----------

  /**
   Main result: the functors executed, the rest of the batch and the pending ones are the accepted
   ones in lock order; after End the executed ones stay a prefix of the accepted ones.
   */
  lemma FunctorOrder(ss: seq<State>, steps: seq<Step>, i: nat)
    requires Execution(ss, steps) && i < |ss|
    ensures !ss[i].pc.Done? ==> ss[i].executed + ss[i].batch + ss[i].pending == ss[i].accepted
    ensures ss[i].executed <= ss[i].accepted
  {
    InvAlways(ss, steps, i);
    var s := ss[i];
    assert s.executed + s.dropped + s.batch + s.pending == s.executed + (s.dropped + s.batch + s.pending);
    if !s.pc.Done? {
      assert s.executed + s.dropped == s.executed;
    }
  }

  /** The next swap takes every pending functor, so a woken loop leaves none behind. */
  lemma SwapTakesAll(s: State)
    requires Inv(s) && Enabled(s, Swap)
    ensures Apply(s, Swap).pending == [] && s.executed + Apply(s, Swap).batch == s.accepted
  {
  }

  // ---------- What the steps of a call do ----------

  /** queueInLoop pushes its argument behind the functors already pending. */
  lemma PushAppends(s: State, t: Tid, f: Functor)
    requires t in s.pcs && s.pcs[t] == Checked(f)
    ensures var s' := Apply(s, QueuePush(t));
            && s'.pending == s.pending + [f] && s'.accepted == s.accepted + [f] && s'.pcs == s.pcs[t := Pushed]
            && s'.executed == s.executed && s'.quit == s.quit && s'.eventfd == s.eventfd && s'.pc == s.pc
  {
  }

  lemma OnlyPushAccepts(s: State, step: Step)
    requires Enabled(s, step) && Apply(s, step).accepted != s.accepted
    ensures step.QueuePush?
  {
  }

  lemma CheckedKept(s: State, step: Step, t: Tid, f: Functor)
    requires Enabled(s, step) && t in Apply(s, step).pcs && Apply(s, step).pcs[t] == Checked(f)
    ensures t in s.pcs && (step == QueueCheck(t, f) || (s.pcs[t] == Checked(f) && !(step.QueueCheck? && step.t == t)))
  {
  }

  /** A call of queueInLoop under way carries the argument that its thread called it with. */
  lemma {:induction false} ArgumentOfCall(ss: seq<State>, steps: seq<Step>, i: nat, t: Tid, f: Functor) returns (j: nat)
    requires Execution(ss, steps) && i < |ss| && t in ss[i].pcs && ss[i].pcs[t] == Checked(f)
    ensures j < i && steps[j] == QueueCheck(t, f)
    ensures forall k :: j < k < i ==> !(steps[k].QueueCheck? && steps[k].t == t)
  {
    assert i > 0;
    CheckedKept(ss[i - 1], steps[i - 1], t, f);
    j := i - 1;
    if steps[j] != QueueCheck(t, f) {
      j := ArgumentOfCall(ss, steps, i - 1, t, f);
    }
  }

  /** Main result: a functor accepted in a run is the argument of its thread's last call of queueInLoop. */
  lemma AcceptsItsArgument(ss: seq<State>, steps: seq<Step>, i: nat) returns (j: nat)
    requires Execution(ss, steps) && i < |steps| && ss[i + 1].accepted != ss[i].accepted
    ensures j < i && steps[i].QueuePush? && steps[j].QueueCheck? && steps[j].t == steps[i].t
    ensures forall k :: j < k < i ==> !(steps[k].QueueCheck? && steps[k].t == steps[i].t)
    ensures ss[i + 1].accepted == ss[i].accepted + [steps[j].f] && ss[i + 1].pending == ss[i].pending + [steps[j].f]
  {
    OnlyPushAccepts(ss[i], steps[i]);
    var t := steps[i].t;
    PushAppends(ss[i], t, ss[i].pcs[t].f);
    j := ArgumentOfCall(ss, steps, i, t, ss[i].pcs[t].f);
  }

  lemma QuitByStep(s: State, step: Step)
    requires Enabled(s, step)
    ensures Apply(s, step).quit <==> s.quit || step.EndSet?
  {
  }

  /** Main result: quit_ is set from the first call of endLoop on, and never otherwise. */
  lemma {:induction false} QuitIffEndLoop(ss: seq<State>, steps: seq<Step>, i: nat)
    requires Execution(ss, steps) && i < |ss|
    ensures ss[i].quit <==> exists j :: 0 <= j < i && steps[j].EndSet?
  {
    if i > 0 {
      QuitIffEndLoop(ss, steps, i - 1);
      QuitByStep(ss[i - 1], steps[i - 1]);
    }
  }

  /** The loop goes on as long as quit_ is not set, and ends as soon as it reads that it is. */
  lemma LoopTestsQuit(s: State)
    requires Enabled(s, CheckQuit)
    ensures !s.quit ==> Apply(s, CheckQuit).pc == AtEnter && Apply(s, CheckQuit).state == s.state
    ensures s.quit ==> Apply(s, CheckQuit).pc == AtEnd && Apply(s, CheckQuit).state == End
  {
  }

  /** handleWakeUp: one read of the eventfd takes its whole value; the callbacks of others leave it alone. */
  lemma EventReadsEventfd(s: State)
    requires Enabled(s, HandleEvent)
    ensures var s' := Apply(s, HandleEvent);
            && (s.pc.events[0] == WakeUpEvent ==> s'.eventfd == 0)
            && (s.pc.events[0] == OtherEvent ==> s'.eventfd == s.eventfd)
            && [s.pc.events[0]] + s'.pc.events == s.pc.events && s'.pending == s.pending && s'.quit == s.quit
  {
  }

  /** The step is the callback of the eventfd's handler. */
  predicate HandlesWakeUp(s: State, step: Step)
  {
    step.HandleEvent? && s.pc.AtEvents? && s.pc.events != [] && s.pc.events[0] == WakeUpEvent
  }

  ghost predicate UnreadWrite(ss: seq<State>, steps: seq<Step>, j: int, i: int)
    requires |ss| == |steps| + 1
  {
    0 <= j < i <= |steps| && steps[j].WakeWrite? && forall k :: j < k < i ==> !HandlesWakeUp(ss[k], steps[k])
  }

  lemma EventfdByStep(s: State, step: Step)
    requires Enabled(s, step)
    ensures Apply(s, step).eventfd > 0 <==> step.WakeWrite? || (s.eventfd > 0 && !HandlesWakeUp(s, step))
  {
  }

  lemma {:induction false} UnreadIsReadable(ss: seq<State>, steps: seq<Step>, j: nat, i: nat)
    requires Execution(ss, steps) && UnreadWrite(ss, steps, j, i)
    ensures ss[i].eventfd > 0
  {
    if j < i - 1 {
      UnreadIsReadable(ss, steps, j, i - 1);
    }
    EventfdByStep(ss[i - 1], steps[i - 1]);
  }

  lemma {:induction false} ReadableIsUnread(ss: seq<State>, steps: seq<Step>, i: nat) returns (j: nat)
    requires Execution(ss, steps) && i < |ss| && ss[i].eventfd > 0
    ensures UnreadWrite(ss, steps, j, i)
  {
    EventfdByStep(ss[i - 1], steps[i - 1]);
    j := i - 1;
    if !steps[j].WakeWrite? {
      j := ReadableIsUnread(ss, steps, i - 1);
    }
  }

  /** Main result: the eventfd is readable iff some wakeUp has written it since it was last read. */
  lemma ReadableIffWritten(ss: seq<State>, steps: seq<Step>, i: nat)
    requires Execution(ss, steps) && i < |ss|
    ensures ss[i].eventfd > 0 <==> exists j :: UnreadWrite(ss, steps, j, i)
  {
    if ss[i].eventfd > 0 {
      var j := ReadableIsUnread(ss, steps, i);
    } else if j :| UnreadWrite(ss, steps, j, i) {
      UnreadIsReadable(ss, steps, j, i);
    }
  }

  // ---------- The calls as the code makes them ----------

  ghost predicate Reaches(ss: seq<State>, steps: seq<Step>, s: State, s': State)
  {
    Run(ss, steps) && ss[0] == s && ss[|ss| - 1] == s'
  }

  ghost predicate CanReach(s: State, s': State)
  {
    exists ss, steps :: Reaches(ss, steps, s, s')
  }

  lemma ReachesItself(s: State)
    ensures CanReach(s, s)
  {
    assert Reaches([s], [], s, s);
  }

  lemma ReachesNext(s: State, m: State, step: Step)
    requires CanReach(s, m) && Enabled(m, step)
    ensures CanReach(s, Apply(m, step))
  {
    var ss, steps :| Reaches(ss, steps, s, m);
    RunGrows(ss, steps, step);
    assert Reaches(ss + [Apply(m, step)], steps + [step], s, Apply(m, step));
  }

  lemma RunGrows(ss: seq<State>, steps: seq<Step>, step: Step)
    requires Run(ss, steps) && Enabled(ss[|ss| - 1], step)
    ensures Run(ss + [Apply(ss[|ss| - 1], step)], steps + [step])
  {
  }

  /** What is reached from a state of an execution belongs to an execution. */
  lemma ReachedByExecution(s: State, s': State) returns (ss: seq<State>, steps: seq<Step>)
    requires Init(s) && CanReach(s, s')
    ensures Execution(ss, steps) && ss[|ss| - 1] == s'
  {
    ss, steps :| Reaches(ss, steps, s, s');
  }

  /** queueInLoop when no other thread moves meanwhile. */
  ghost function QueueInLoopAlone(s: State, t: Tid, f: Functor): State
    requires MayCall(s, t)
  {
    if s.state.End? then s
    else
      var s3 := Apply(Apply(Apply(s, QueueCheck(t, f)), QueuePush(t)), WakeDecide(t));
      if s3.pcs[t].Waking? then Apply(s3, WakeWrite(t)) else s3
  }

  /** endLoop when no other thread moves meanwhile; in Ready it runs the loop, which ends at once. */
  ghost function EndLoopAlone(s: State, t: Tid): State
    requires MayCall(s, t) && (s.state.Ready? ==> t == s.loopThread && s.pc.BeforeLoop?)
  {
    var s2 := Apply(Apply(s, EndSet(t)), EndDecide(t));
    if s2.pcs[t].Waking? then Apply(s2, WakeWrite(t))
    else if s.state.Ready? then Apply(Apply(s2, CheckQuit), Clear)
    else s2
  }

  /** What the two calls come to. */
  ghost function Queued(s: State, t: Tid, f: Functor): State
  {
    if s.state.End? then s
    else s.(pending := s.pending + [f], accepted := s.accepted + [f],
            eventfd := if NeedsWakeUp(s, t) then Written(s.eventfd) else s.eventfd)
  }

  ghost function Ended(s: State): State
  {
    var now := s.(quit := true, quitAt := if s.quit then s.quitAt else Some(s.iteration));
    if s.state.Ready? then
      now.(pc := Done, state := End, dropped := s.dropped + s.pending, pending := [])
    else now.(eventfd := if s.state.End? then s.eventfd else Written(s.eventfd))
  }

  lemma QueueAloneIs(s: State, t: Tid, f: Functor)
    requires MayCall(s, t)
    ensures QueueInLoopAlone(s, t, f) == Queued(s, t, f)
  {
    assert s.pcs[t := Idle] == s.pcs;
  }

  lemma EndAloneIs(s: State, t: Tid)
    requires MayCall(s, t) && (s.state.Ready? ==> t == s.loopThread && s.pc.BeforeLoop?)
    ensures EndLoopAlone(s, t) == Ended(s)
  {
    assert s.pcs[t := Idle] == s.pcs;
  }

  lemma QueueIsARun(s: State, m: State, t: Tid, f: Functor)
    requires CanReach(s, m) && MayCall(m, t)
    ensures CanReach(s, Queued(m, t, f))
  {
    if !m.state.End? {
      QueueAloneIs(m, t, f);
      var m1 := Apply(m, QueueCheck(t, f));
      ReachesNext(s, m, QueueCheck(t, f));
      ReachesNext(s, m1, QueuePush(t));
      var m2 := Apply(m1, QueuePush(t));
      ReachesNext(s, m2, WakeDecide(t));
      var m3 := Apply(m2, WakeDecide(t));
      if m3.pcs[t].Waking? {
        ReachesNext(s, m3, WakeWrite(t));
      }
    }
  }

  lemma EndIsARun(s: State, m: State, t: Tid)
    requires CanReach(s, m) && MayCall(m, t) && (m.state.Ready? ==> t == m.loopThread && m.pc.BeforeLoop?)
    ensures CanReach(s, Ended(m))
  {
    EndAloneIs(m, t);
    ReachesNext(s, m, EndSet(t));
    var m1 := Apply(m, EndSet(t));
    ReachesNext(s, m1, EndDecide(t));
    var m2 := Apply(m1, EndDecide(t));
    if m2.pcs[t].Waking? {
      ReachesNext(s, m2, WakeWrite(t));
    } else if m.state.Ready? {
      ReachesNext(s, m2, CheckQuit);
      ReachesNext(s, Apply(m2, CheckQuit), Clear);
    }
  }

  /** The functors that the functors of a batch queue when they run, in order. */
  function QueuedBy(batch: seq<Functor>, queues: Functor -> seq<Functor>): seq<Functor>
  {
    if batch == [] then [] else queues(batch[0]) + QueuedBy(batch[1..], queues)
  }

  lemma {:induction false} QueuedByAppend(batch: seq<Functor>, f: Functor, queues: Functor -> seq<Functor>)
    ensures QueuedBy(batch + [f], queues) == QueuedBy(batch, queues) + queues(f)
  {
    if batch == [] {
      assert [f][1..] == [];
    } else {
      QueuedByAppend(batch[1..], f, queues);
      assert (batch + [f])[1..] == batch[1..] + [f];
    }
  }

  predicate EndedBy(batch: seq<Functor>, ends: Functor -> bool)
  {
    exists i :: 0 <= i < |batch| && ends(batch[i])
  }

  /** What happens in one iteration before the swap: the functors queued, and whether the loop is ended. */
  datatype Turn = Turn(queued: seq<Functor>, ended: bool)

  datatype Outcome = Outcome(ran: seq<Functor>, pending: seq<Functor>, quit: bool, iterations: nat)

  /** loop() from the test of quit_ on; queues and ends say what happens while a functor runs. */
  function Looped(pending: seq<Functor>, quit: bool, turns: seq<Turn>,
                  queues: Functor -> seq<Functor>, ends: Functor -> bool): Outcome
    decreases |turns|
  {
    if quit || turns == [] then Outcome([], pending, quit, 0)
    else
      var batch := pending + turns[0].queued;
      var rest := Looped(QueuedBy(batch, queues), turns[0].ended || EndedBy(batch, ends), turns[1..], queues, ends);
      rest.(ran := batch + rest.ran, iterations := rest.iterations + 1)
  }

  /** All functors queued in the given turns, in lock order. */
  function QueuedIn(pending: seq<Functor>, turns: seq<Turn>, queues: Functor -> seq<Functor>): seq<Functor>
    decreases |turns|
  {
    if turns == [] then []
    else
      var now := QueuedBy(pending + turns[0].queued, queues);
      turns[0].queued + now + QueuedIn(now, turns[1..], queues)
  }

  /**
   The loop runs the iterations up to the first one in which it is ended and no further, and the
   functors it runs, followed by those it leaves, are all that were queued, in order.
   */
  lemma {:induction false} LoopRunsInOrder(pending: seq<Functor>, turns: seq<Turn>,
                                           queues: Functor -> seq<Functor>, ends: Functor -> bool)
    ensures var o := Looped(pending, false, turns, queues, ends);
            && o.iterations <= |turns|
            && o.ran + o.pending == pending + QueuedIn(pending, turns[..o.iterations], queues)
            && (!o.quit ==> o.iterations == |turns|)
            && (forall k :: 0 <= k < |turns| && turns[k].ended ==> o.quit && o.iterations <= k + 1)
            && (o.quit ==> turns[o.iterations - 1].ended || exists f :: f in o.ran && ends(f))
    decreases |turns|
  {
    if turns != [] {
      var batch := pending + turns[0].queued;
      var now := QueuedBy(batch, queues);
      var o := Looped(pending, false, turns, queues, ends);
      if turns[0].ended || EndedBy(batch, ends) {
        assert turns[..1][1..] == [];
        assert o.ran == batch;
        if !turns[0].ended {
          var i :| 0 <= i < |batch| && ends(batch[i]);
          assert batch[i] in o.ran;
        }
      } else {
        LoopRunsInOrder(now, turns[1..], queues, ends);
        var rest := Looped(now, false, turns[1..], queues, ends);
        assert turns[..o.iterations][1..] == turns[1..][..rest.iterations];
        assert forall k :: 0 < k < |turns| ==> turns[k] == turns[1..][k - 1];
        assert batch + rest.ran + rest.pending == batch + (rest.ran + rest.pending);
      }
    }
  }

  class EventLoop {
    var state: LoopState
    var quit: bool
    var iteration: nat
    var pendingFunctors: seq<Functor>
    var eventfd: nat

    ghost predicate Represents(s: State)
      reads this
    {
      state == s.state && quit == s.quit && iteration == s.iteration
      && pendingFunctors == s.pending && eventfd == s.eventfd
    }

    constructor ()
      ensures state.Ready? && !quit && iteration == 0 && pendingFunctors == [] && eventfd == 0
    {
      state, quit, iteration, pendingFunctors, eventfd := Ready, false, 0, [], 0;
    }

    method WakeUp()
      modifies this`eventfd
      ensures eventfd == if state.End? then old(eventfd) else Written(old(eventfd))
    {
      if state.End? {
        return;
      }
      eventfd := Written(eventfd);
    }

    /** The callback of the eventfd's handler: one read empties the counter. */
    method HandleWakeUp(ghost s: State)
      requires Represents(s) && Enabled(s, HandleEvent) && s.pc.events[0].WakeUpEvent?
      modifies this`eventfd
      ensures Represents(Apply(s, HandleEvent)) && eventfd == 0
    {
      eventfd := 0;
    }

    method QueueInLoop(f: Functor, isLoopThread: bool, ghost s: State, ghost t: Tid)
      requires Represents(s) && MayCall(s, t) && (isLoopThread <==> t == s.loopThread)
      modifies this`pendingFunctors, this`eventfd
      ensures Represents(QueueInLoopAlone(s, t, f))
      ensures pendingFunctors == if state.End? then old(pendingFunctors) else old(pendingFunctors) + [f]
    {
      QueueAloneIs(s, t, f);
      if state.End? {
        return;
      }
      pendingFunctors := pendingFunctors + [f];
      if !isLoopThread || state.PendingHandling? || state.Ready? {
        WakeUp();
      }
    }

    /**
     A functor handed in by the loop thread runs at once, also after End; queues is what it queues
     when it runs.
     */
    method RunInLoop(f: Functor, queues: seq<Functor>, isLoopThread: bool, ghost s: State, ghost t: Tid)
      returns (ran: bool)
      requires Represents(s) && MayCall(s, t) && (isLoopThread <==> t == s.loopThread)
      modifies this`pendingFunctors, this`eventfd
      ensures ran <==> isLoopThread
      ensures Represents(if ran then QueuedAll(s, queues) else QueueInLoopAlone(s, t, f))
    {
      ran := isLoopThread;
      if ran {
        ReachesItself(s);
        QueueAll(queues, s, s);
      } else if !state.End? {
        QueueInLoop(f, false, s, t);
      }
    }

    method EndLoop(ghost s: State, ghost t: Tid)
      requires Represents(s) && MayCall(s, t) && (s.state.Ready? ==> t == s.loopThread && s.pc.BeforeLoop?)
      modifies this
      ensures Represents(EndLoopAlone(s, t)) && quit
    {
      EndAloneIs(s, t);
      quit := true;
      if !state.Ready? && !state.End? {
        WakeUp();
      }
      if state.Ready? {
        CleanUp();
      }
    }

    /** loop() after its while loop. */
    method CleanUp()
      modifies this`state, this`pendingFunctors
      ensures state.End? && pendingFunctors == []
    {
      state := End;
      pendingFunctors := [];
    }

    /** The functors that user code on the loop thread queues, one after the other. */
    method QueueAll(fs: seq<Functor>, ghost s: State, ghost from: State)
      requires Represents(s) && MayCall(s, s.loopThread) && CanReach(from, s)
      modifies this`pendingFunctors, this`eventfd
      ensures Represents(QueuedAll(s, fs)) && CanReach(from, QueuedAll(s, fs))
    {
      ghost var now := s;
      for i := 0 to |fs|
        invariant Represents(now) && CanReach(from, now) && now == QueuedAll(s, fs[..i])
      {
        QueueIsARun(from, now, s.loopThread, fs[i]);
        QueueAloneIs(now, s.loopThread, fs[i]);
        QueueInLoop(fs[i], true, now, s.loopThread);
        now := Queued(now, s.loopThread, fs[i]);
        QueuedOneMore(s, fs, i);
      }
      assert fs[..|fs|] == fs;
    }

    /** User code on the loop thread: it queues functors, and may end the loop. */
    method Callback(queues: seq<Functor>, ends: bool, ghost s: State, ghost from: State) returns (ghost s': State)
      requires Represents(s) && CanReach(from, s) && MayCall(s, s.loopThread) && !s.state.Ready? && !s.state.End?
      modifies this
      ensures Represents(s') && CanReach(from, s') && s' == AfterCallback(s, queues, ends)
    {
      QueueAll(queues, s, from);
      s' := QueuedAll(s, queues);
      if ends {
        EndIsARun(from, s', s.loopThread);
        EndAloneIs(s', s.loopThread);
        EndLoop(s', s.loopThread);
        s' := Ended(s');
      }
    }

    /** loop() from the test of quit_ until the events of the poll are handled. */
    method Poll(ghost s: State, ghost from: State) returns (ghost s': State)
      requires Represents(s) && CanReach(from, s) && AtRest(s) && !s.quit
      modifies this
      ensures Represents(s') && CanReach(from, s') && Polled(s, s')
    {
      ReachesNext(from, s, CheckQuit);
      s' := Apply(s, CheckQuit);
      iteration := iteration + 1;
      state := Polling;
      ReachesNext(from, s', Enter);
      s' := Apply(s', Enter);
      ghost var events := if eventfd > 0 then [WakeUpEvent] else [];
      state := IOHandling;
      ReachesNext(from, s', PollReturns(events));
      s' := Apply(s', PollReturns(events));
      if eventfd > 0 {
        ReachesNext(from, s', HandleEvent);
        HandleWakeUp(s');
        s' := Apply(s', HandleEvent);
      }
    }

    /** The pending functors are swapped out. */
    method TakePending(ghost s: State, ghost from: State) returns (funcs: seq<Functor>, ghost s': State)
      requires Represents(s) && Enabled(s, EventsDone) && s.batch == [] && CanReach(from, s)
      modifies this`state, this`pendingFunctors
      ensures Represents(s') && CanReach(from, s') && s' == Apply(Apply(s, EventsDone), Swap)
      ensures funcs == old(pendingFunctors)
    {
      state := PendingHandling;
      ReachesNext(from, s, EventsDone);
      funcs := pendingFunctors;
      pendingFunctors := [];
      ReachesNext(from, Apply(s, EventsDone), Swap);
      s' := Apply(Apply(s, EventsDone), Swap);
    }

    /**
     The functors swapped out run in order. What they queue stays pending for the next iteration,
     which the eventfd then starts at once.
     */
    method RunPendingFunctors(funcs: seq<Functor>, queues: Functor -> seq<Functor>, ends: Functor -> bool,
                              ghost s: State, ghost from: State) returns (ghost s': State)
      requires Represents(s) && InBatch(s) && s.batch == funcs && s.pending == [] && CanReach(from, s)
      modifies this
      ensures Represents(s') && CanReach(from, s') && InBatch(s') && s'.batch == []
      ensures s'.executed == s.executed + funcs && s'.iteration == s.iteration
      ensures s'.pending == QueuedBy(funcs, queues)
      ensures s'.quit <==> s.quit || EndedBy(funcs, ends)
      ensures s'.pending != [] || (s'.quit && !s.quit) ==> s'.eventfd > 0
    {
      s' := s;
      for i := 0 to |funcs|
        invariant Represents(s') && CanReach(from, s') && InBatch(s') && s'.batch == funcs[i..]
        invariant BatchSoFar(s, s', funcs[..i], queues, ends)
      {
        ReachesNext(from, s', RunFunctor);
        ghost var before := s';
        s' := Apply(s', RunFunctor);
        s' := Callback(queues(funcs[i]), ends(funcs[i]), s', from);
        BatchGrows(s, before, funcs[..i], funcs[i], queues, ends);
        assert funcs[..i + 1] == funcs[..i] + [funcs[i]];
      }
      assert funcs[..|funcs|] == funcs;
    }

    /** One iteration of the while loop. */
    method RunIteration(turn: Turn, queues: Functor -> seq<Functor>, ends: Functor -> bool, ghost s: State,
                        ghost from: State) returns (ran: seq<Functor>, ghost s': State)
      requires Represents(s) && CanReach(from, s) && AtRest(s) && !s.quit
      modifies this
      ensures Represents(s') && CanReach(from, s') && AtRest(s')
      ensures IterationDone(s, s', ran, turn, queues, ends)
    {
      ghost var polled := Poll(s, from);
      s' := Callback(turn.queued, turn.ended, polled, from);
      SwapAfterPoll(s, polled, turn);
      ran, s' := TakePending(s', from);
      s' := RunPendingFunctors(ran, queues, ends, s', from);
      ReachesNext(from, s', BatchDone);
      s' := Apply(s', BatchDone);
    }

    /** The while loop of loop(). */
    method Iterate(turns: seq<Turn>, queues: Functor -> seq<Functor>, ends: Functor -> bool, ghost s: State)
      returns (ran: seq<Functor>, ghost s': State)
      requires Represents(s) && AtRest(s)
      modifies this
      ensures Represents(s') && CanReach(s, s') && AtRest(s')
      ensures IteratedTo(s, s', ran, Looped(s.pending, s.quit, turns, queues, ends))
    {
      ran := [];
      var i := 0;
      s' := s;
      ReachesItself(s);
      ghost var all := Looped(s.pending, s.quit, turns, queues, ends);
      while !quit && i < |turns|
        invariant i <= |turns| && Represents(s') && CanReach(s, s') && AtRest(s')
        invariant LoopedSoFar(all, s, s', ran, i, turns, queues, ends)
      {
        ghost var before := s';
        var batch;
        batch, s' := RunIteration(turns[i], queues, ends, s', s);
        LoopedOneMore(all, s, before, s', ran, batch, i, turns, queues, ends);
        ran := ran + batch;
        i := i + 1;
      }
      LoopedEnough(all, s, s', ran, i, turns, queues, ends);
    }

    /** loop(), when turns says what happens in each iteration up to the swap. */
    method RunLoop(turns: seq<Turn>, queues: Functor -> seq<Functor>, ends: Functor -> bool, ghost s: State)
      returns (ran: seq<Functor>, ghost s': State)
      requires Represents(s) && AtRest(s)
      modifies this
      ensures Represents(s') && CanReach(s, s') && LoopedTo(s, s', ran, Looped(s.pending, s.quit, turns, queues, ends))
    {
      ran, s' := Iterate(turns, queues, ends, s);
      if quit {
        s' := Finish(s', s);
      }
    }

    /** The end of loop(). */
    method Finish(ghost s: State, ghost from: State) returns (ghost s': State)
      requires Represents(s) && CanReach(from, s) && AtRest(s) && s.quit
      modifies this`state, this`pendingFunctors
      ensures Represents(s') && CanReach(from, s') && s'.pc.Done? && s'.quit && s'.pending == []
      ensures s'.executed == s.executed && s'.iteration == s.iteration
    {
      ReachesNext(from, s, CheckQuit);
      ReachesNext(from, Apply(s, CheckQuit), Clear);
      s' := Apply(Apply(s, CheckQuit), Clear);
      CleanUp();
    }
  }

  /** loop() is about to read quit_, and no call is under way on its thread. */
  predicate AtRest(s: State)
  {
    LoopMoves(s) && s.pc.AtCheck? && s.batch == [] && !s.state.End?
  }

  predicate InBatch(s: State)
  {
    LoopMoves(s) && s.pc.AtBatch? && s.state.PendingHandling?
  }

  function WrittenTimes(eventfd: nat, n: nat): (e: nat)
    ensures e >= eventfd && (n > 0 ==> e > 0)
  {
    if n == 0 then eventfd else Written(WrittenTimes(eventfd, n - 1))
  }

  /** What queueing fs one by one on the loop thread comes to. */
  ghost function QueuedAll(s: State, fs: seq<Functor>): State
  {
    if s.state.End? then s
    else s.(pending := s.pending + fs, accepted := s.accepted + fs,
            eventfd := if NeedsWakeUp(s, s.loopThread) then WrittenTimes(s.eventfd, |fs|) else s.eventfd)
  }

  ghost function AfterCallback(s: State, queues: seq<Functor>, ends: bool): State
  {
    if ends then Ended(QueuedAll(s, queues)) else QueuedAll(s, queues)
  }

  /** The poll has returned, and the eventfd has been read if it was readable. */
  predicate Polled(s: State, s': State)
  {
    && LoopMoves(s') && s'.pc == AtEvents([]) && s'.state.IOHandling? && s'.batch == []
    && s'.pending == s.pending && s'.executed == s.executed && s'.quit == s.quit && s'.iteration == s.iteration + 1
  }

  lemma SwapAfterPoll(s: State, polled: State, turn: Turn)
    requires Polled(s, polled) && !s.quit
    ensures var m := AfterCallback(polled, turn.queued, turn.ended);
            && Enabled(m, EventsDone) && m.batch == [] && m.pending == s.pending + turn.queued
            && var taken := Apply(Apply(m, EventsDone), Swap);
               && InBatch(taken) && taken.batch == s.pending + turn.queued && taken.pending == []
               && taken.executed == s.executed && taken.iteration == s.iteration + 1 && taken.quit == turn.ended
  {
  }

  /** What has come of the functors ran since the swap left s. */
  ghost predicate BatchSoFar(s: State, s': State, ran: seq<Functor>,
                             queues: Functor -> seq<Functor>, ends: Functor -> bool)
  {
    && s'.executed == s.executed + ran && s'.iteration == s.iteration
    && s'.pending == QueuedBy(ran, queues)
    && (s'.quit <==> s.quit || EndedBy(ran, ends))
    && (s'.pending != [] || (s'.quit && !s.quit) ==> s'.eventfd > 0)
  }

  lemma BatchGrows(s: State, m: State, ran: seq<Functor>, f: Functor,
                   queues: Functor -> seq<Functor>, ends: Functor -> bool)
    requires BatchSoFar(s, m, ran, queues, ends) && InBatch(m) && m.batch != [] && m.batch[0] == f
    ensures BatchSoFar(s, AfterCallback(Apply(m, RunFunctor), queues(f), ends(f)), ran + [f], queues, ends)
  {
    QueuedByAppend(ran, f, queues);
    EndedByAppend(ran, f, ends);
  }

  /** One iteration ran the pending functors and those queued before the swap. */
  ghost predicate IterationDone(s: State, s': State, ran: seq<Functor>, turn: Turn,
                                queues: Functor -> seq<Functor>, ends: Functor -> bool)
  {
    && ran == s.pending + turn.queued && s'.pending == QueuedBy(ran, queues)
    && s'.executed == s.executed + ran && s'.iteration == s.iteration + 1
    && (s'.quit <==> turn.ended || EndedBy(ran, ends))
  }

  /** The turns from i on, run from s', complete what all the turns come to. */
  ghost predicate LoopedSoFar(all: Outcome, s: State, s': State, ran: seq<Functor>, i: nat, turns: seq<Turn>,
                              queues: Functor -> seq<Functor>, ends: Functor -> bool)
    requires i <= |turns|
  {
    var rest := Looped(s'.pending, s'.quit, turns[i..], queues, ends);
    && all == rest.(ran := ran + rest.ran, iterations := i + rest.iterations)
    && s'.executed == s.executed + ran && s'.iteration == s.iteration + i
  }

  /** The functors ran, the flag, the iterations and the functors left are those of o. */
  predicate IteratedTo(s: State, s': State, ran: seq<Functor>, o: Outcome)
  {
    && ran == o.ran && s'.executed == s.executed + ran
    && s'.quit == o.quit && s'.iteration == s.iteration + o.iterations && s'.pending == o.pending
  }

  /** Likewise after the end of loop(), which drops the functors left once quit_ is set. */
  predicate LoopedTo(s: State, s': State, ran: seq<Functor>, o: Outcome)
  {
    && ran == o.ran && s'.executed == s.executed + ran
    && s'.quit == o.quit && s'.iteration == s.iteration + o.iterations
    && if o.quit then s'.pc.Done? && s'.pending == [] else AtRest(s') && s'.pending == o.pending
  }

  lemma LoopedEnough(all: Outcome, s: State, s': State, ran: seq<Functor>, i: nat, turns: seq<Turn>,
                     queues: Functor -> seq<Functor>, ends: Functor -> bool)
    requires i <= |turns| && LoopedSoFar(all, s, s', ran, i, turns, queues, ends) && (s'.quit || i == |turns|)
    ensures IteratedTo(s, s', ran, all)
  {
    assert ran + [] == ran;
  }

  lemma LoopedOneMore(all: Outcome, s: State, m: State, s': State, ran: seq<Functor>, batch: seq<Functor>, i: nat,
                      turns: seq<Turn>, queues: Functor -> seq<Functor>, ends: Functor -> bool)
    requires i < |turns| && LoopedSoFar(all, s, m, ran, i, turns, queues, ends) && !m.quit
    requires IterationDone(m, s', batch, turns[i], queues, ends)
    ensures LoopedSoFar(all, s, s', ran + batch, i + 1, turns, queues, ends)
  {
    assert turns[i..][0] == turns[i] && turns[i..][1..] == turns[i + 1..];
    var rest := Looped(s'.pending, s'.quit, turns[i + 1..], queues, ends);
    assert ran + (batch + rest.ran) == ran + batch + rest.ran;
    assert s.executed + ran + batch == s.executed + (ran + batch);
  }

  lemma QueuedOneMore(s: State, fs: seq<Functor>, i: nat)
    requires i < |fs|
    ensures Queued(QueuedAll(s, fs[..i]), s.loopThread, fs[i]) == QueuedAll(s, fs[..i + 1])
  {
    assert fs[..i + 1] == fs[..i] + [fs[i]];
    assert s.pending + fs[..i] + [fs[i]] == s.pending + fs[..i + 1];
    assert s.accepted + fs[..i] + [fs[i]] == s.accepted + fs[..i + 1];
  }

  lemma EndedByAppend(batch: seq<Functor>, f: Functor, ends: Functor -> bool)
    ensures EndedBy(batch + [f], ends) <==> EndedBy(batch, ends) || ends(f)
  {
    if EndedBy(batch, ends) {
      var i :| 0 <= i < |batch| && ends(batch[i]);
      assert (batch + [f])[i] == batch[i];
    }
    assert (batch + [f])[|batch|] == f;
  }
}
