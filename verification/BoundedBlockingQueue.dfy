/**
 The bounded blocking queue of include/hohnor/thread/BoundedBlockingQueue.h as a monitor:
 one lock, the condition notEmpty_ for consumers, the condition notFull_ for producers, single
 notifications from put and take, and the broadcast of giveUp.

 Every thread carries a program counter. A waiting thread is asleep until it is notified, or
 wakes up for no reason, and it must then win the lock again against threads that just arrive.
 */
module BoundedBlockingQueue {
  import opened Counting
  import C = CircularBuffer
  import opened Options

  type Tid = nat

  /** What put, take and giveUp return. */
  datatype Result<T> = Done | Got(item: T) | Default

  datatype Pc<T> =
    | Idle
    | PutEntry(x: T) | PutLocked(x: T) | PutAsleep(x: T) | PutSignalled(x: T) | PutNotify
    | TakeEntry | TakeLocked | TakeAsleep | TakeSignalled | TakeNotify(got: T)
    | GiveUpEntry | GiveUpLocked | GiveUpTakers | GiveUpPutters
    | Leaving(result: Result<T>)

  /** The thread is inside the critical section. */
  predicate InSection<T>(pc: Pc<T>)
  {
    || pc.PutLocked? || pc.PutNotify? || pc.TakeLocked? || pc.TakeNotify?
    || pc.GiveUpLocked? || pc.GiveUpTakers? || pc.GiveUpPutters? || pc.Leaving?
  }

  /** The thread competes for the lock. */
  predicate WantsLock<T>(pc: Pc<T>)
  {
    pc.PutEntry? || pc.PutSignalled? || pc.TakeEntry? || pc.TakeSignalled? || pc.GiveUpEntry?
  }

  predicate Asleep<T>(pc: Pc<T>) { pc.PutAsleep? || pc.TakeAsleep? }
  predicate SignalledPut<T>(pc: Pc<T>) { pc.PutSignalled? }
  predicate SignalledTake<T>(pc: Pc<T>) { pc.TakeSignalled? }

  /** accepted and taken record the items stored by put and removed by take, in order. */
  datatype State<T> = State(
    capacity: nat,
    items: seq<T>,
    end: bool,
    lock: Option<Tid>,
    pcs: map<Tid, Pc<T>>,
    accepted: seq<T>,
    taken: seq<T>)

  datatype Step<T> =
    | CallPut(t: Tid, x: T)
    | CallTake(t: Tid)
    | CallGiveUp(t: Tid)
    | Acquire(t: Tid)
    | Run(t: Tid)
    | Notify(t: Tid, woken: Option<Tid>)
    | Release(t: Tid)
    | SpuriousWakeUp(t: Tid)

  // ---------- The transitions ----------

  ghost predicate Init<T>(s: State<T>, capacity: nat)
  {
    && s.capacity == capacity >= 2
    && s.items == [] && !s.end && s.lock.None? && s.accepted == [] && s.taken == []
    && forall t :: t in s.pcs ==> s.pcs[t].Idle?
  }

  predicate Full<T>(s: State<T>) { |s.items| == s.capacity }

  /** The thread that notify wakes: some sleeper if there is one. */
  predicate Wakes<T>(s: State<T>, notEmpty: bool, woken: Option<Tid>)
  {
    match woken
    case Some(u) => u in s.pcs && if notEmpty then s.pcs[u].TakeAsleep? else s.pcs[u].PutAsleep?
    case None => forall u :: u in s.pcs ==> if notEmpty then !s.pcs[u].TakeAsleep? else !s.pcs[u].PutAsleep?
  }

  predicate Enabled<T>(s: State<T>, step: Step<T>)
  {
    && step.t in s.pcs
    && var pc := s.pcs[step.t];
    match step
    case CallPut(_, _) => pc.Idle?
    case CallTake(_) => pc.Idle?
    case CallGiveUp(_) => pc.Idle?
    case Acquire(_) => s.lock.None? && WantsLock(pc)
    case Run(_) => pc.PutLocked? || pc.TakeLocked? || pc.GiveUpLocked? || pc.GiveUpTakers? || pc.GiveUpPutters?
    case Notify(_, woken) => (pc.PutNotify? && Wakes(s, true, woken)) || (pc.TakeNotify? && Wakes(s, false, woken))
    case Release(_) => pc.Leaving?
    case SpuriousWakeUp(_) => Asleep(pc)
  }

  function Signal<T>(pc: Pc<T>): Pc<T>
  {
    match pc
    case PutAsleep(x) => PutSignalled(x)
    case TakeAsleep => TakeSignalled
    case _ => pc
  }

  /** notifyAll on one of the two conditions. */
  function Broadcast<T>(pcs: map<Tid, Pc<T>>, takers: bool): (r: map<Tid, Pc<T>>)
    ensures r.Keys == pcs.Keys
  {
    map t | t in pcs :: if pcs[t].TakeAsleep? == takers && Asleep(pcs[t]) then Signal(pcs[t]) else pcs[t]
  }

  function Goto<T>(s: State<T>, t: Tid, pc: Pc<T>): State<T>
  {
    s.(pcs := s.pcs[t := pc])
  }

  /** put under the lock: wait while full, give up when ended, store otherwise. */
  function RunPut<T>(s: State<T>, t: Tid, x: T): State<T>
  {
    if Full(s) && !s.end then Goto(s, t, PutAsleep(x)).(lock := None)
    else if s.end then Goto(s, t, Leaving(Done))
    else Goto(s, t, PutNotify).(items := s.items + [x], accepted := s.accepted + [x])
  }

  /** take under the lock: wait while empty, return a default item when ended, remove the front otherwise. */
  function RunTake<T>(s: State<T>, t: Tid): State<T>
  {
    if s.items == [] && !s.end then Goto(s, t, TakeAsleep).(lock := None)
    else if s.end then Goto(s, t, Leaving(Default))
    else Goto(s, t, TakeNotify(s.items[0])).(items := s.items[1..], taken := s.taken + [s.items[0]])
  }

  function Apply<T>(s: State<T>, step: Step<T>): State<T>
    requires Enabled(s, step)
  {
    var pc := s.pcs[step.t];
    match step
    case CallPut(t, x) => Goto(s, t, PutEntry(x))
    case CallTake(t) => Goto(s, t, TakeEntry)
    case CallGiveUp(t) => Goto(s, t, GiveUpEntry)
    case Acquire(t) =>
      Goto(s, t, match pc
                 case PutEntry(x) => PutLocked(x)
                 case PutSignalled(x) => PutLocked(x)
                 case GiveUpEntry => GiveUpLocked
                 case _ => TakeLocked).(lock := Some(t))
    case Run(t) =>
      (match pc
       case PutLocked(x) => RunPut(s, t, x)
       case TakeLocked => RunTake(s, t)
       case GiveUpLocked => Goto(s, t, GiveUpTakers).(end := true)
       case GiveUpTakers => s.(pcs := Broadcast(s.pcs, true)[t := GiveUpPutters])
       case _ => s.(pcs := Broadcast(s.pcs, false)[t := Leaving(Done)]))
    case Notify(t, woken) =>
      var s' := if woken.Some? then Goto(s, woken.value, Signal(s.pcs[woken.value])) else s;
      Goto(s', t, if pc.PutNotify? then Leaving(Done) else Leaving(Got(pc.got)))
    case Release(t) => Goto(s, t, Idle).(lock := None)
    case SpuriousWakeUp(t) => Goto(s, t, Signal(pc))
  }

  ghost predicate Execution<T>(ss: seq<State<T>>, steps: seq<Step<T>>, capacity: nat)
  {
    && |ss| == |steps| + 1 && Init(ss[0], capacity)
    && forall i {:trigger steps[i]} :: 0 <= i < |steps| ==>
         Enabled(ss[i], steps[i]) && ss[i + 1] == Apply(ss[i], steps[i])
  }

  // ---------- The invariant ----------

  ghost predicate LockDiscipline<T>(s: State<T>)
  {
    && (s.lock.Some? ==> s.lock.value in s.pcs)
    && forall t :: t in s.pcs ==> (InSection(s.pcs[t]) <==> s.lock == Some(t))
  }

  ghost predicate HolderAt<T>(s: State<T>, p: Pc<T> -> bool)
  {
    s.lock.Some? && s.lock.value in s.pcs && p(s.pcs[s.lock.value])
  }

  /** The lock holder will still wake a consumer, or is one about to look at the queue. */
  predicate ServesTakers<T>(pc: Pc<T>) { pc.PutNotify? || pc.TakeLocked? }
  predicate ServesPutters<T>(pc: Pc<T>) { pc.TakeNotify? || pc.PutLocked? }
  predicate WakesTakers<T>(pc: Pc<T>) { pc.GiveUpTakers? }
  predicate WakesPutters<T>(pc: Pc<T>) { pc.GiveUpTakers? || pc.GiveUpPutters? }

  /** While a consumer sleeps, every item has a signalled consumer or the lock holder to serve it. */
  ghost predicate TakersAccounted<T>(s: State<T>)
  {
    (exists t :: t in s.pcs && s.pcs[t].TakeAsleep?) ==>
      |s.items| <= Count(s.pcs, SignalledTake) + One(HolderAt(s, ServesTakers))
  }

  /** While a producer sleeps, every free slot has a signalled producer or the lock holder to serve it. */
  ghost predicate PuttersAccounted<T>(s: State<T>)
  {
    (exists t :: t in s.pcs && s.pcs[t].PutAsleep?) ==>
      s.capacity - |s.items| <= Count(s.pcs, SignalledPut) + One(HolderAt(s, ServesPutters))
  }

  /** Once end_ is set only the giveUp that is still broadcasting can see a sleeper. */
  ghost predicate NobodySleepsAfterEnd<T>(s: State<T>)
  {
    s.end ==>
      && ((exists t :: t in s.pcs && s.pcs[t].TakeAsleep?) ==> HolderAt(s, WakesTakers))
      && ((exists t :: t in s.pcs && s.pcs[t].PutAsleep?) ==> HolderAt(s, WakesPutters))
  }

  ghost predicate Inv<T>(s: State<T>)
  {
    && s.capacity >= 2 && |s.items| <= s.capacity
    && s.taken + s.items == s.accepted
    && LockDiscipline(s)
    && TakersAccounted(s) && PuttersAccounted(s) && NobodySleepsAfterEnd(s)
    && (HolderAt(s, WakesPutters) ==> s.end)
  }

  // ---------- Every step keeps the invariant ----------

  lemma GotoCounts<T>(s: State<T>, t: Tid, pc: Pc<T>)
    requires t in s.pcs
    ensures Count(Goto(s, t, pc).pcs, SignalledTake) ==
              Count(s.pcs, SignalledTake) - One(s.pcs[t].TakeSignalled?) + One(pc.TakeSignalled?)
    ensures Count(Goto(s, t, pc).pcs, SignalledPut) ==
              Count(s.pcs, SignalledPut) - One(s.pcs[t].PutSignalled?) + One(pc.PutSignalled?)
  {
    CountUpdate(s.pcs, t, pc, SignalledTake);
    CountUpdate(s.pcs, t, pc, SignalledPut);
  }

  lemma CallKeepsInv<T>(s: State<T>, t: Tid, pc: Pc<T>)
    requires Inv(s) && t in s.pcs && s.pcs[t].Idle? && (pc.PutEntry? || pc.TakeEntry? || pc.GiveUpEntry?)
    ensures Inv(Goto(s, t, pc))
  {
    GotoCounts(s, t, pc);
  }

  lemma WakeUpKeepsInv<T>(s: State<T>, t: Tid)
    requires Inv(s) && t in s.pcs && Asleep(s.pcs[t])
    ensures Inv(Goto(s, t, Signal(s.pcs[t])))
  {
    GotoCounts(s, t, Signal(s.pcs[t]));
  }

  lemma AcquireKeepsInv<T>(s: State<T>, t: Tid)
    requires Inv(s) && Enabled(s, Acquire(t))
    ensures Inv(Apply(s, Acquire(t)))
  {
    var s' := Apply(s, Acquire(t));
    GotoCounts(s, t, s'.pcs[t]);
    assert s'.pcs == s.pcs[t := s'.pcs[t]];
  }

  lemma ReleaseKeepsInv<T>(s: State<T>, t: Tid)
    requires Inv(s) && Enabled(s, Release(t))
    ensures Inv(Apply(s, Release(t)))
  {
    var s' := Apply(s, Release(t));
    GotoCounts(s, t, Idle);
    assert s'.pcs == s.pcs[t := Idle];
  }

  lemma RunPutKeepsInv<T>(s: State<T>, t: Tid)
    requires Inv(s) && t in s.pcs && s.pcs[t].PutLocked?
    ensures Inv(Apply(s, Run(t)))
  {
    var s' := Apply(s, Run(t));
    GotoCounts(s, t, s'.pcs[t]);
    assert s'.pcs == s.pcs[t := s'.pcs[t]];
    assert s.lock == Some(t);
    BackGrows(s.taken, s.items, s.pcs[t].x);
  }

  lemma BackGrows<T>(taken: seq<T>, items: seq<T>, x: T)
    ensures taken + (items + [x]) == (taken + items) + [x]
  {
  }

  lemma RunTakeKeepsInv<T>(s: State<T>, t: Tid)
    requires Inv(s) && t in s.pcs && s.pcs[t].TakeLocked?
    ensures Inv(Apply(s, Run(t)))
  {
    var s' := Apply(s, Run(t));
    GotoCounts(s, t, s'.pcs[t]);
    assert s'.pcs == s.pcs[t := s'.pcs[t]];
    assert s.lock == Some(t);
    if s.items != [] {
      FrontMoves(s.taken, s.items);
    }
  }

  lemma FrontMoves<T>(taken: seq<T>, items: seq<T>)
    requires items != []
    ensures (taken + [items[0]]) + items[1..] == taken + items
  {
  }

  lemma EndKeepsInv<T>(s: State<T>, t: Tid)
    requires Inv(s) && t in s.pcs && s.pcs[t].GiveUpLocked?
    ensures Inv(Apply(s, Run(t)))
  {
    assert s.lock == Some(t);
    GotoCounts(s, t, GiveUpTakers);
  }

  lemma BroadcastTakersKeepsInv<T>(s: State<T>, t: Tid)
    requires Inv(s) && t in s.pcs && s.pcs[t].GiveUpTakers?
    ensures Inv(Apply(s, Run(t)))
  {
    var s' := Apply(s, Run(t));
    assert s.lock == Some(t);
    assert forall u :: u in s'.pcs ==> !s'.pcs[u].TakeAsleep?;
    assert forall u :: u in s'.pcs ==> (s'.pcs[u].PutAsleep? <==> s.pcs[u].PutAsleep?);
    CountSame(s.pcs, s'.pcs, SignalledPut);
  }

  lemma BroadcastPuttersKeepsInv<T>(s: State<T>, t: Tid)
    requires Inv(s) && t in s.pcs && s.pcs[t].GiveUpPutters?
    ensures Inv(Apply(s, Run(t)))
  {
    var s' := Apply(s, Run(t));
    assert s.lock == Some(t);
    assert forall u :: u in s'.pcs ==> !Asleep(s'.pcs[u]);
  }

  /** Waking a consumer pays for the notification that the lock holder still owed. */
  lemma NotifyTakerKeepsInv<T>(s: State<T>, t: Tid, woken: Option<Tid>)
    requires Inv(s) && Enabled(s, Notify(t, woken)) && s.pcs[t].PutNotify?
    ensures Inv(Apply(s, Notify(t, woken)))
  {
    assert s.lock == Some(t);
    if woken.Some? {
      var m := Goto(s, woken.value, TakeSignalled);
      GotoCounts(s, woken.value, TakeSignalled);
      GotoCounts(m, t, Leaving(Done));
      NotifyParts(s, m, Goto(m, t, Leaving(Done)), t);
    } else {
      GotoCounts(s, t, Leaving(Done));
      NotifyParts(s, s, Goto(s, t, Leaving(Done)), t);
    }
  }

  lemma NotifyPutterKeepsInv<T>(s: State<T>, t: Tid, woken: Option<Tid>)
    requires Inv(s) && Enabled(s, Notify(t, woken)) && s.pcs[t].TakeNotify?
    ensures Inv(Apply(s, Notify(t, woken)))
  {
    assert s.lock == Some(t);
    var done := Leaving(Got(s.pcs[t].got));
    if woken.Some? {
      var m := Goto(s, woken.value, Signal(s.pcs[woken.value]));
      GotoCounts(s, woken.value, Signal(s.pcs[woken.value]));
      GotoCounts(m, t, done);
      NotifyParts(s, m, Goto(m, t, done), t);
    } else {
      GotoCounts(s, t, done);
      NotifyParts(s, s, Goto(s, t, done), t);
    }
  }

  /** What a notification leaves alone. */
  lemma NotifyParts<T>(s: State<T>, m: State<T>, s': State<T>, t: Tid)
    requires LockDiscipline(s) && NobodySleepsAfterEnd(s) && s.lock == Some(t)
    requires s.pcs[t].PutNotify? || s.pcs[t].TakeNotify?
    requires m == s || exists u :: u in s.pcs && Asleep(s.pcs[u]) && m == Goto(s, u, Signal(s.pcs[u]))
    requires t in s'.pcs && s'.pcs[t].Leaving? && s' == Goto(m, t, s'.pcs[t])
    ensures LockDiscipline(s') && NobodySleepsAfterEnd(s')
    ensures !HolderAt(s', ServesTakers) && !HolderAt(s', ServesPutters) && !HolderAt(s', WakesPutters)
    ensures HolderAt(s, ServesTakers) == s.pcs[t].PutNotify? && HolderAt(s, ServesPutters) == s.pcs[t].TakeNotify?
  {
  }

  lemma StepKeepsInv<T>(s: State<T>, step: Step<T>)
    requires Inv(s) && Enabled(s, step)
    ensures Inv(Apply(s, step))
  {
    match step
    case CallPut(t, x) => CallKeepsInv(s, t, PutEntry(x));
    case CallTake(t) => CallKeepsInv(s, t, TakeEntry);
    case CallGiveUp(t) => CallKeepsInv(s, t, GiveUpEntry);
    case SpuriousWakeUp(t) => WakeUpKeepsInv(s, t);
    case Acquire(t) => AcquireKeepsInv(s, t);
    case Release(t) => ReleaseKeepsInv(s, t);
    case Notify(t, woken) =>
      if s.pcs[t].PutNotify? { NotifyTakerKeepsInv(s, t, woken); } else { NotifyPutterKeepsInv(s, t, woken); }
    case Run(t) =>
      match s.pcs[t] {
        case PutLocked(_) => RunPutKeepsInv(s, t);
        case TakeLocked => RunTakeKeepsInv(s, t);
        case GiveUpLocked => EndKeepsInv(s, t);
        case GiveUpTakers => BroadcastTakersKeepsInv(s, t);
        case GiveUpPutters => BroadcastPuttersKeepsInv(s, t);
      }
  }

  lemma {:induction false} InvAlways<T>(ss: seq<State<T>>, steps: seq<Step<T>>, capacity: nat, i: nat)
    requires Execution(ss, steps, capacity) && i < |ss|
    ensures Inv(ss[i]) && ss[i].capacity == capacity
  {
    if i > 0 {
      InvAlways(ss, steps, capacity, i - 1);
      StepKeepsInv(ss[i - 1], steps[i - 1]);
    }
  }

  /** A step moves its own thread; others are at most woken up. */
  lemma OnlyWakesOthers<T>(s: State<T>, step: Step<T>, u: Tid)
    requires Enabled(s, step) && u in s.pcs && u != step.t
    ensures Apply(s, step).pcs.Keys == s.pcs.Keys
    ensures Apply(s, step).pcs[u] == s.pcs[u] || Apply(s, step).pcs[u] == Signal(s.pcs[u])
  {
  }

  // ---------- What holds over whole runs ----------

  /** Main result: whenever the lock is free, sleepers are outnumbered by the signals under way. */
  lemma SignalAccounting<T>(ss: seq<State<T>>, steps: seq<Step<T>>, capacity: nat, i: nat)
    requires Execution(ss, steps, capacity) && i < |ss| && ss[i].lock.None?
    ensures (exists t :: t in ss[i].pcs && ss[i].pcs[t].TakeAsleep?) ==>
              |ss[i].items| <= Count(ss[i].pcs, SignalledTake)
    ensures (exists t :: t in ss[i].pcs && ss[i].pcs[t].PutAsleep?) ==>
              capacity - |ss[i].items| <= Count(ss[i].pcs, SignalledPut)
  {
    InvAlways(ss, steps, capacity, i);
  }

  /** No thread runs, holds the lock or is on its way to it. */
  ghost predicate Quiescent<T>(s: State<T>)
  {
    forall t :: t in s.pcs ==> s.pcs[t].Idle? || Asleep(s.pcs[t])
  }

  /**
   Main result: when nothing moves any more, every sleeper waits for a good reason. Either the
   queue is empty and only consumers sleep, or it is full and only producers sleep, or nobody does.
   */
  lemma NoDeadlock<T>(ss: seq<State<T>>, steps: seq<Step<T>>, capacity: nat, i: nat)
    requires Execution(ss, steps, capacity) && i < |ss| && Quiescent(ss[i])
    ensures var s := ss[i];
            || (forall t :: t in s.pcs ==> s.pcs[t].Idle?)
            || (!s.end && s.items == [] && forall t :: t in s.pcs ==> !s.pcs[t].PutAsleep?)
            || (!s.end && Full(s) && forall t :: t in s.pcs ==> !s.pcs[t].TakeAsleep?)
  {
    InvAlways(ss, steps, capacity, i);
    var s := ss[i];
    assert s.lock.None?;
    CountZero(s.pcs, SignalledTake);
    CountZero(s.pcs, SignalledPut);
    if t :| t in s.pcs && s.pcs[t].TakeAsleep? {
      assert |s.items| <= 0;
    }
    if t :| t in s.pcs && s.pcs[t].PutAsleep? {
      assert s.capacity - |s.items| <= 0;
    }
  }

  /** Sleeping producers and sleeping consumers never coexist with nobody awake to resolve it. */
  lemma NoMutualSleep<T>(ss: seq<State<T>>, steps: seq<Step<T>>, capacity: nat, i: nat, t: Tid, u: Tid)
    requires Execution(ss, steps, capacity) && i < |ss|
    requires t in ss[i].pcs && ss[i].pcs[t].TakeAsleep? && u in ss[i].pcs && ss[i].pcs[u].PutAsleep?
    ensures ss[i].lock.Some? || Count(ss[i].pcs, SignalledTake) + Count(ss[i].pcs, SignalledPut) >= capacity
  {
    InvAlways(ss, steps, capacity, i);
  }

  /** A step a thread takes on its own inside put, take or giveUp. */
  predicate Internal<T>(step: Step<T>)
  {
    step.Acquire? || step.Run? || step.Notify? || step.Release?
  }

  /** As long as some thread is neither idle nor asleep, some thread can move. */
  lemma Progress<T>(ss: seq<State<T>>, steps: seq<Step<T>>, capacity: nat, i: nat) returns (step: Step<T>)
    requires Execution(ss, steps, capacity) && i < |ss| && !Quiescent(ss[i])
    ensures Internal(step) && Enabled(ss[i], step)
  {
    InvAlways(ss, steps, capacity, i);
    var s := ss[i];
    if s.lock.Some? {
      var t := s.lock.value;
      match s.pcs[t] {
        case PutNotify =>
          if u :| u in s.pcs && s.pcs[u].TakeAsleep? { step := Notify(t, Some(u)); } else { step := Notify(t, None); }
        case TakeNotify(_) =>
          if u :| u in s.pcs && s.pcs[u].PutAsleep? { step := Notify(t, Some(u)); } else { step := Notify(t, None); }
        case Leaving(_) => step := Release(t);
        case _ => step := Run(t);
      }
    } else {
      var t :| t in s.pcs && !s.pcs[t].Idle? && !Asleep(s.pcs[t]);
      assert !InSection(s.pcs[t]);
      step := Acquire(t);
    }
  }

  ghost predicate NobodyAsleep<T>(s: State<T>)
  {
    forall t :: t in s.pcs ==> !Asleep(s.pcs[t])
  }

  /** giveUp has set end_ and finished both broadcasts. */
  ghost predicate GivenUp<T>(s: State<T>)
  {
    s.end && NobodyAsleep(s)
  }

  /** A giveUp that is about to unlock has woken everybody. */
  lemma GiveUpWakesAll<T>(ss: seq<State<T>>, steps: seq<Step<T>>, capacity: nat, i: nat)
    requires Execution(ss, steps, capacity) && i < |steps|
    requires steps[i].Run? && ss[i].pcs[steps[i].t].GiveUpPutters?
    ensures GivenUp(ss[i + 1])
  {
    InvAlways(ss, steps, capacity, i);
    InvAlways(ss, steps, capacity, i + 1);
    assert ss[i].lock == Some(steps[i].t);
  }

  /** Main result: after giveUp nobody sleeps again and the contents never change. */
  lemma {:induction false} GivenUpForever<T>(ss: seq<State<T>>, steps: seq<Step<T>>, capacity: nat, i: nat, j: nat)
    requires Execution(ss, steps, capacity) && i <= j < |ss| && GivenUp(ss[i])
    ensures GivenUp(ss[j])
    ensures ss[j].items == ss[i].items && ss[j].accepted == ss[i].accepted && ss[j].taken == ss[i].taken
  {
    if i < j {
      GivenUpForever(ss, steps, capacity, i, j - 1);
      GivenUpStep(ss[j - 1], steps[j - 1]);
    }
  }

  lemma GivenUpStep<T>(s: State<T>, step: Step<T>)
    requires Enabled(s, step) && s.end
    ensures var s' := Apply(s, step);
            && s'.end && s'.items == s.items && s'.accepted == s.accepted && s'.taken == s.taken
            && (NobodyAsleep(s) ==> NobodyAsleep(s'))
  {
  }

  /** Main result: at every moment the items taken and the items held are the items accepted, in order. */
  lemma FirstInFirstOut<T>(ss: seq<State<T>>, steps: seq<Step<T>>, capacity: nat, i: nat)
    requires Execution(ss, steps, capacity) && i < |ss|
    ensures ss[i].taken + ss[i].items == ss[i].accepted && |ss[i].items| <= capacity
  {
    InvAlways(ss, steps, capacity, i);
  }

  // ---------- What put stores and what take returns ----------

  /** A put under way, and the item it was called with. */
  ghost predicate Carries<T>(pc: Pc<T>, x: T)
  {
    pc == PutEntry(x) || pc == PutLocked(x) || pc == PutAsleep(x) || pc == PutSignalled(x)
  }

  /** put stores its argument at the back when there is room, waits when there is none, and ends when given up. */
  lemma PutStores<T>(s: State<T>, t: Tid, x: T)
    requires t in s.pcs && s.pcs[t] == PutLocked(x)
    ensures var s' := Apply(s, Run(t));
            && s'.taken == s.taken && s'.end == s.end && s'.capacity == s.capacity
            && (!s.end && |s.items| != s.capacity ==>
                  s'.items == s.items + [x] && s'.accepted == s.accepted + [x] && s'.pcs == s.pcs[t := PutNotify])
            && (s.end ==> s'.items == s.items && s'.accepted == s.accepted && s'.pcs == s.pcs[t := Leaving(Done)])
            && (!s.end && |s.items| == s.capacity ==>
                  && s'.items == s.items && s'.accepted == s.accepted && s'.lock.None?
                  && s'.pcs == s.pcs[t := PutAsleep(x)])
  {
  }

  /** take removes the front, waits when there is nothing, and ends with a default item when given up. */
  lemma TakeRemoves<T>(s: State<T>, t: Tid)
    requires t in s.pcs && s.pcs[t].TakeLocked?
    ensures var s' := Apply(s, Run(t));
            && s'.accepted == s.accepted && s'.end == s.end && s'.capacity == s.capacity
            && (!s.end && s.items != [] ==>
                  [s.items[0]] + s'.items == s.items && s'.taken == s.taken + [s.items[0]]
                  && s'.pcs == s.pcs[t := TakeNotify(s.items[0])])
            && (s.end ==> s'.items == s.items && s'.taken == s.taken && s'.pcs == s.pcs[t := Leaving(Default)])
            && (!s.end && s.items == [] ==>
                  s'.items == [] && s'.taken == s.taken && s'.lock.None? && s'.pcs == s.pcs[t := TakeAsleep])
  {
  }

  /** Nothing but a put with room adds an item, and nothing but a take with one removes it. */
  lemma OnlyPutAndTake<T>(s: State<T>, step: Step<T>)
    requires Enabled(s, step)
    ensures Apply(s, step).accepted != s.accepted ==> step.Run? && s.pcs[step.t].PutLocked? && !s.end && !Full(s)
    ensures Apply(s, step).taken != s.taken ==> step.Run? && s.pcs[step.t].TakeLocked? && !s.end && s.items != []
  {
  }

  lemma ArgumentKept<T>(s: State<T>, step: Step<T>, t: Tid, x: T)
    requires Enabled(s, step) && t in Apply(s, step).pcs && Carries(Apply(s, step).pcs[t], x)
    ensures t in s.pcs && (step == CallPut(t, x) || (Carries(s.pcs[t], x) && !(step.CallPut? && step.t == t)))
  {
  }

  /** A put under way carries the argument of the last call of put by its thread. */
  lemma {:induction false} ArgumentOfCall<T>(
    ss: seq<State<T>>, steps: seq<Step<T>>, capacity: nat, i: nat, t: Tid, x: T) returns (j: nat)
    requires Execution(ss, steps, capacity) && i < |ss| && t in ss[i].pcs && Carries(ss[i].pcs[t], x)
    ensures j < i && steps[j] == CallPut(t, x)
    ensures forall k :: j < k < i ==> !(steps[k].CallPut? && steps[k].t == t)
  {
    assert i > 0;
    ArgumentKept(ss[i - 1], steps[i - 1], t, x);
    j := i - 1;
    if steps[j] != CallPut(t, x) {
      j := ArgumentOfCall(ss, steps, capacity, i - 1, t, x);
    }
  }

  /**
   Main result: whenever an item is accepted in a run, it is the argument of the last call of put
   by the thread that stores it, and it goes to the back.
   */
  lemma StoresItsArgument<T>(ss: seq<State<T>>, steps: seq<Step<T>>, capacity: nat, i: nat) returns (j: nat)
    requires Execution(ss, steps, capacity) && i < |steps| && ss[i + 1].accepted != ss[i].accepted
    ensures j < i && steps[i].Run? && steps[j].CallPut? && steps[j].t == steps[i].t
    ensures forall k :: j < k < i ==> !(steps[k].CallPut? && steps[k].t == steps[i].t)
    ensures ss[i + 1].accepted == ss[i].accepted + [steps[j].x] && ss[i + 1].items == ss[i].items + [steps[j].x]
  {
    var t := steps[i].t;
    OnlyPutAndTake(ss[i], steps[i]);
    var x := ss[i].pcs[t].x;
    PutStores(ss[i], t, x);
    j := ArgumentOfCall(ss, steps, capacity, i, t, x);
  }

  /** The thread has removed x, and is about to return it. */
  ghost predicate Returns<T>(pc: Pc<T>, x: T)
  {
    pc == TakeNotify(x) || pc == Leaving(Got(x))
  }

  lemma ResultKept<T>(s: State<T>, step: Step<T>, t: Tid, x: T)
    requires Enabled(s, step) && t in Apply(s, step).pcs && Returns(Apply(s, step).pcs[t], x)
    ensures t in s.pcs
    ensures (step == Run(t) && s.pcs[t].TakeLocked? && !s.end && s.items != [] && s.items[0] == x)
            || (Returns(s.pcs[t], x) && step != Run(t))
  {
  }

  /** Main result: what take returns in a run is the item that its thread removed from the front. */
  lemma {:induction false} ReturnsTheFront<T>(
    ss: seq<State<T>>, steps: seq<Step<T>>, capacity: nat, i: nat, t: Tid, x: T) returns (j: nat)
    requires Execution(ss, steps, capacity) && i < |ss| && t in ss[i].pcs && Returns(ss[i].pcs[t], x)
    ensures j < i && steps[j] == Run(t) && ss[j].items != [] && ss[j].items[0] == x
    ensures ss[j + 1].taken == ss[j].taken + [x] && [x] + ss[j + 1].items == ss[j].items
    ensures forall k :: j < k < i ==> steps[k] != Run(t)
  {
    assert i > 0;
    ResultKept(ss[i - 1], steps[i - 1], t, x);
    j := i - 1;
    if steps[j] == Run(t) {
      TakeRemoves(ss[j], t);
    } else {
      j := ReturnsTheFront(ss, steps, capacity, i - 1, t, x);
    }
  }

  // ---------- The critical sections over the ring buffer ----------

  datatype PutOutcome = PutWaits | PutEnded | PutStored(woken: Option<Tid>)
  datatype TakeOutcome<T> = TakeWaits | TakeEnded | Took(item: T, woken: Option<Tid>)

  /** The threads asleep on one of the two conditions. */
  function Sleepers<T>(s: State<T>, notEmpty: bool): set<Tid>
  {
    set t | t in s.pcs && if notEmpty then s.pcs[t].TakeAsleep? else s.pcs[t].PutAsleep?
  }

  /** The critical section of giveUp, after the lock is won. */
  function GiveUpAlone<T>(s: State<T>, t: Tid): State<T>
    requires t in s.pcs && s.pcs[t].GiveUpLocked?
  {
    Apply(Apply(Apply(s, Run(t)), Run(t)), Run(t))
  }

  /** The critical section of put, after the lock is won. */
  function PutAlone<T>(s: State<T>, t: Tid, x: T, r: PutOutcome): State<T>
    requires t in s.pcs && s.pcs[t] == PutLocked(x)
    requires r.PutStored? ==> !(Full(s) && !s.end) && !s.end && Wakes(s, true, r.woken)
  {
    if r.PutStored? then Apply(Apply(s, Run(t)), Notify(t, r.woken)) else Apply(s, Run(t))
  }

  /** The critical section of take, after the lock is won. */
  function TakeAlone<T>(s: State<T>, t: Tid, r: TakeOutcome<T>): State<T>
    requires t in s.pcs && s.pcs[t].TakeLocked?
    requires r.Took? ==> s.items != [] && !s.end && Wakes(s, false, r.woken)
  {
    if r.Took? then Apply(Apply(s, Run(t)), Notify(t, r.woken)) else Apply(s, Run(t))
  }

  lemma WakesASleeper<T>(s: State<T>, notEmpty: bool, woken: Option<Tid>)
    requires if woken.Some? then woken.value in Sleepers(s, notEmpty) else Sleepers(s, notEmpty) == {}
    ensures Wakes(s, notEmpty, woken)
  {
    if woken.None? {
      forall u | u in s.pcs ensures if notEmpty then !s.pcs[u].TakeAsleep? else !s.pcs[u].PutAsleep? {
        assert u !in Sleepers(s, notEmpty);
      }
    }
  }

  lemma BroadcastsWakeAll<T>(s: State<T>, t: Tid)
    requires t in s.pcs && s.pcs[t].GiveUpLocked?
    ensures var s' := GiveUpAlone(s, t);
            && s'.end && s'.items == s.items && s'.capacity == s.capacity
            && Sleepers(s', true) == {} == Sleepers(s', false)
  {
  }

  /** The pthread condition: the set of the threads that sleep on it. */
  class Condition {
    var sleepers: set<Tid>

    constructor ()
      ensures sleepers == {}
    {
      sleepers := {};
    }

    method Wait(t: Tid)
      modifies this
      ensures sleepers == old(sleepers) + {t}
    {
      sleepers := sleepers + {t};
    }

    /** Wakes some sleeper if there is one. */
    method Notify() returns (woken: Option<Tid>)
      modifies this
      ensures match woken
              case Some(u) => u in old(sleepers) && sleepers == old(sleepers) - {u}
              case None => old(sleepers) == {} == sleepers
    {
      if sleepers == {} {
        return None;
      }
      var u :| u in sleepers;
      sleepers := sleepers - {u};
      return Some(u);
    }

    method NotifyAll()
      modifies this
      ensures sleepers == {}
    {
      sleepers := {};
    }
  }

  class BoundedBlockingQueue<T> {
    const queue: C.CircularBuffer<T>
    const notEmpty: Condition
    const notFull: Condition
    var end: bool

    ghost predicate Valid()
      reads this, queue
    {
      queue.Valid() && notEmpty != notFull
    }

    ghost predicate Represents(s: State<T>)
      requires Valid()
      reads this, queue, queue.buffer, notEmpty, notFull
    {
      && s.capacity == queue.MaxSize() && s.items == queue.Contents() && s.end == end
      && notEmpty.sleepers == Sleepers(s, true) && notFull.sleepers == Sleepers(s, false)
    }

    constructor (maxSize: nat, emptyItem: T)
      requires maxSize >= 2
      ensures Valid() && fresh(queue) && fresh(queue.buffer) && fresh(notEmpty) && fresh(notFull)
      ensures queue.MaxSize() == maxSize && queue.Contents() == [] && !end
      ensures notEmpty.sleepers == {} == notFull.sleepers
    {
      queue := new C.CircularBuffer(maxSize, emptyItem);
      notEmpty := new Condition();
      notFull := new Condition();
      end := false;
    }

    /** put after the lock is won: one look at the queue. */
    method PutUnderLock(x: T, t: Tid, ghost s: State<T>) returns (r: PutOutcome)
      requires Valid() && Represents(s) && |s.items| <= s.capacity && t in s.pcs && s.pcs[t] == PutLocked(x)
      modifies queue`tail, queue.buffer, notEmpty, notFull
      ensures Valid()
      ensures r.PutWaits? <==> Full(s) && !s.end
      ensures r.PutEnded? <==> s.end
      ensures r.PutStored? ==> Wakes(s, true, r.woken)
      ensures queue.Contents() == old(queue.Contents()) + if r.PutStored? then [x] else []
      ensures Represents(PutAlone(s, t, x, r))
    {
      if queue.Full() && !end {
        notFull.Wait(t);
        return PutWaits;
      }
      if end {
        return PutEnded;
      }
      var ok := queue.Enqueue(x);
      var woken := notEmpty.Notify();
      WakesASleeper(s, true, woken);
      return PutStored(woken);
    }

    /** take after the lock is won. */
    method TakeUnderLock(t: Tid, ghost s: State<T>) returns (r: TakeOutcome<T>)
      requires Valid() && Represents(s) && |s.items| <= s.capacity && t in s.pcs && s.pcs[t].TakeLocked?
      modifies queue`head, queue.buffer, notEmpty, notFull
      ensures Valid()
      ensures r.TakeWaits? <==> s.items == [] && !s.end
      ensures r.TakeEnded? <==> s.end
      ensures r.Took? ==> s.items != [] && r.item == s.items[0] && Wakes(s, false, r.woken)
      ensures old(queue.Contents()) == (if r.Took? then [r.item] else []) + queue.Contents()
      ensures Represents(TakeAlone(s, t, r))
    {
      if queue.Empty() && !end {
        notEmpty.Wait(t);
        return TakeWaits;
      }
      if end {
        return TakeEnded;
      }
      var front := queue.Dequeue();
      assert front.Some? && s.items == [front.value] + queue.Contents();
      var woken := notFull.Notify();
      WakesASleeper(s, false, woken);
      return Took(front.value, woken);
    }

    method GiveUp(ghost s: State<T>, ghost t: Tid)
      requires Valid() && Represents(s) && t in s.pcs && s.pcs[t].GiveUpLocked?
      modifies this`end, notEmpty, notFull
      ensures Valid() && Represents(GiveUpAlone(s, t))
      ensures end && notEmpty.sleepers == {} == notFull.sleepers && queue.Contents() == old(queue.Contents())
    {
      BroadcastsWakeAll(s, t);
      end := true;
      notEmpty.NotifyAll();
      notFull.NotifyAll();
    }
  }
}
