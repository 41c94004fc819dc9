/**
 The timers of src/core/Timer.cpp: handlers ordered by (expiration, sequence) in a heap, drained
 when the timerfd is readable, with repeating handlers put back by a queued functor.

 A handler is named by its sequence number. Times are microseconds. Callbacks and the other
 threads act on the handlers at any moment, also in the middle of a drain.
 */
module Timer {

  import opened CArithmetic
  import opened Options

  type Id = nat
  type Time = int
  type CallbackId = nat

  const MICROSECONDS_PER_SECOND: int := 1000000
  const LEAST_DELAY: int := 100

  // ---------- One handler ----------

  /** interval_ is positive for a repeating handler; addTime turns it into delta whole microseconds. */
  datatype Interval = Once | Every(delta: nat)

  datatype Timer = Timer(expiration: Time, interval: Interval, disabled: bool, callback: Option<CallbackId>)

  predicate IsRepeat(t: Timer) { t.interval.Every? }

  /** What run() invokes. */
  function ToInvoke(t: Timer): Option<CallbackId>
  {
    if t.disabled then None else t.callback
  }

  /** What run() does after the callback. */
  function AfterInvoke(t: Timer): Timer
  {
    if IsRepeat(t) then t else t.(callback := None)
  }

  function DisabledTimer(t: Timer): Timer
  {
    t.(interval := Once, disabled := true, callback := None)
  }

  function Reloaded(t: Timer): Timer
  {
    t.(expiration := if t.interval.Every? then t.expiration + t.interval.delta else 0)
  }

  datatype Key = Key(expiration: Time, sequence: Id)

  predicate KeyLess(x: Key, y: Key)
  {
    if x.expiration < y.expiration then true
    else if x.expiration > y.expiration then false
    else x.sequence < y.sequence
  }

  // ---------- The timerfd ----------

  datatype TimeSpec = TimeSpec(seconds: int, nanoseconds: int)

  function HowMuchTimeFromNow(when: Time, now: Time): TimeSpec
  {
    var microseconds := if when - now < LEAST_DELAY then LEAST_DELAY else when - now;
    TimeSpec(TruncDiv(microseconds, MICROSECONDS_PER_SECOND), TruncMod(microseconds, MICROSECONDS_PER_SECOND) * 1000)
  }

  /** Armed until deadline, by a call made at the time at. */
  datatype Fd = Disarmed | Armed(deadline: Time, at: Time)

  /** timerfd_settime with a relative time; a zero time would disarm the descriptor. */
  function SetTime(value: TimeSpec, at: Time): Fd
  {
    if value == TimeSpec(0, 0) then Disarmed
    else Armed(at + value.seconds * MICROSECONDS_PER_SECOND + TruncDiv(value.nanoseconds, 1000), at)
  }

  predicate Readable(fd: Fd, now: Time) { fd.Armed? && fd.deadline <= now }

  function Later(x: Time, y: Time): Time { if x < y then y else x }

  /** The time handed to the kernel is well formed, never disarms, and loses no microsecond. */
  lemma ResetIsExact(when: Time, now: Time)
    ensures var ts := HowMuchTimeFromNow(when, now);
            && 0 <= ts.nanoseconds < 1000000000 && ts.seconds >= 0
            && SetTime(ts, now) == Armed(Later(when, now + LEAST_DELAY), now)
  {
  }

  // ---------- The queue as a state machine ----------

  /** One pop: due is the expiration the handler had, now the time of the drain. */
  datatype Pop = Pop(id: Id, due: Time, now: Time, invoked: Option<CallbackId>)

  /** A drain: its time, the keys in the heap when it began, and the length of the log then. */
  datatype Drain = Drain(now: Time, from: map<Id, Time>, start: nat)

  datatype Phase = Idle | Draining(drain: Drain) | Running(id: Id, drain: Drain)

  datatype Birth = Birth(start: Time, interval: Interval)

  /** awaiting holds the queued calls of addTimerInLoop; log and born are history. */
  datatype State = State(
    timers: map<Id, Timer>, heap: set<Id>, awaiting: seq<Id>, fd: Fd, phase: Phase,
    log: seq<Pop>, born: map<Id, Birth>)

  /**
   What users do. Disable and Update are calls on the loop thread; RunDisable and RunUpdate are
   the functors that the same calls on another thread leave behind.
   */
  datatype Action =
    | Disable(id: Id)
    | Update(id: Id, callback: Option<CallbackId>)
    | RunDisable(id: Id)
    | RunUpdate(id: Id, callback: Option<CallbackId>)
    | Add(id: Id, callback: Option<CallbackId>, when: Time, interval: Interval)

  datatype Step =
    | Act(action: Action)
    | Insert(at: Time)            // the next queued addTimerInLoop runs
    | ReadFd(now: Time)           // handleRead begins
    | PopTop(id: Id)              // handleRead pops a due handler and runs it
    | Finish                      // its callback has returned
    | Rearm(id: Id, at: Time)     // handleRead ends with id on top
    | Stop                        // handleRead ends with an empty heap

  const INITIAL := State(map[], {}, [], Disarmed, Idle, [], map[])

  function KeyOf(timers: map<Id, Timer>, id: Id): Key
    requires id in timers
  {
    Key(timers[id].expiration, id)
  }

  function KeysIn(s: State): map<Id, Time>
    requires s.heap <= s.timers.Keys
  {
    map id | id in s.heap :: s.timers[id].expiration
  }

  ghost predicate IsTop(timers: map<Id, Timer>, heap: set<Id>, id: Id)
    requires heap <= timers.Keys
  {
    id in heap && forall j :: j in heap && j != id ==> KeyLess(KeyOf(timers, id), KeyOf(timers, j))
  }

  function Change(s: State, id: Id, t: Timer): State
  {
    s.(timers := s.timers[id := t])
  }

  /** A name no handler has is nobody's, so nothing happens; sequence numbers are never reused. */
  function Do(s: State, action: Action): State
  {
    match action
    case Disable(id) =>
      if id in s.timers && !s.timers[id].disabled then Change(s, id, DisabledTimer(s.timers[id])) else s
    case Update(id, callback) =>
      if id in s.timers && !s.timers[id].disabled then Change(s, id, s.timers[id].(callback := callback)) else s
    case RunDisable(id) =>
      if id in s.timers then Change(s, id, DisabledTimer(s.timers[id])) else s
    case RunUpdate(id, callback) =>
      if id in s.timers then Change(s, id, s.timers[id].(callback := callback)) else s
    case Add(id, callback, when, interval) =>
      if id in s.timers then s
      else s.(timers := s.timers[id := Timer(when, interval, false, callback)],
              awaiting := s.awaiting + [id],
              born := s.born[id := Birth(when, interval)])
  }

  ghost predicate Enabled(s: State, step: Step)
  {
    && s.heap <= s.timers.Keys
    && match step
       case Act(_) => true
       case Insert(_) => s.phase.Idle? && s.awaiting != [] && s.awaiting[0] in s.timers
       case ReadFd(_) => s.phase.Idle?
       case PopTop(id) =>
         s.phase.Draining? && IsTop(s.timers, s.heap, id) && s.timers[id].expiration <= s.phase.drain.now
       case Finish => s.phase.Running? && s.phase.id in s.timers
       case Rearm(id, _) =>
         s.phase.Draining? && IsTop(s.timers, s.heap, id) && s.timers[id].expiration > s.phase.drain.now
       case Stop => s.phase.Draining? && s.heap == {}
  }

  ghost function Inserted(s: State, at: Time): State
    requires Enabled(s, Insert(at))
  {
    var id := s.awaiting[0];
    var heap := s.heap + {id};
    s.(heap := heap, awaiting := s.awaiting[1..],
       fd := if IsTop(s.timers, heap, id)
             then SetTime(HowMuchTimeFromNow(s.timers[id].expiration, at), at)
             else s.fd)
  }

  ghost function Finished(s: State): State
    requires Enabled(s, Finish)
  {
    var id := s.phase.id;
    var t := AfterInvoke(s.timers[id]);
    if IsRepeat(t) then
      Change(s, id, Reloaded(t)).(awaiting := s.awaiting + [id], phase := Draining(s.phase.drain))
    else
      Change(s, id, t.(disabled := true)).(phase := Draining(s.phase.drain))
  }

  ghost function Apply(s: State, step: Step): State
    requires Enabled(s, step)
  {
    match step
    case Act(action) => Do(s, action)
    case Insert(at) => Inserted(s, at)
    case ReadFd(now) =>
      s.(fd := if Readable(s.fd, now) then Disarmed else s.fd,
         phase := Draining(Drain(now, KeysIn(s), |s.log|)))
    case PopTop(id) =>
      var t := s.timers[id];
      s.(heap := s.heap - {id}, phase := Running(id, s.phase.drain),
         log := s.log + [Pop(id, t.expiration, s.phase.drain.now, ToInvoke(t))])
    case Finish => Finished(s)
    case Rearm(id, at) =>
      s.(fd := SetTime(HowMuchTimeFromNow(s.timers[id].expiration, at), at), phase := Idle)
    case Stop => s.(phase := Idle)
  }

  /** steps is a run from s to s'. */
  ghost predicate Reaches(s: State, steps: seq<Step>, s': State)
    decreases |steps|
  {
    if steps == [] then s == s'
    else Enabled(s, steps[0]) && Reaches(Apply(s, steps[0]), steps[1..], s')
  }

  // ---------- The invariant ----------

  predicate Live(s: State, id: Id)
  {
    id in s.heap || id in s.awaiting || (s.phase.Running? && s.phase.id == id)
  }

  predicate NoRepeats(ids: seq<Id>)
  {
    forall i, j :: 0 <= i < j < |ids| ==> ids[i] != ids[j]
  }

  /** Every handler is in the heap, awaiting insertion, being run, or retired, and in one place only. */
  ghost predicate PlacedOnce(s: State)
  {
    && s.heap <= s.timers.Keys && s.born.Keys == s.timers.Keys
    && (forall id :: id in s.awaiting ==> id in s.timers && id !in s.heap)
    && NoRepeats(s.awaiting)
    && (s.phase.Running? ==> s.phase.id in s.timers && s.phase.id !in s.heap && s.phase.id !in s.awaiting)
    && (forall id :: id in s.timers && !Live(s, id) ==> s.timers[id].disabled)
    && (forall k :: 0 <= k < |s.log| ==> s.log[k].id in s.timers)
  }

  ghost predicate FdCoversHeap(s: State)
    requires s.heap <= s.timers.Keys
  {
    s.phase.Idle? ==>
      forall id :: id in s.heap ==>
        s.fd.Armed? && s.fd.deadline <= Later(s.timers[id].expiration, s.fd.at + LEAST_DELAY)
  }

  function KeyOfPop(p: Pop): Key { Key(p.due, p.id) }

  /** The drain d after popping the handlers in log from d.start on. */
  ghost predicate DrainSoFar(timers: map<Id, Timer>, heap: set<Id>, log: seq<Pop>, d: Drain)
    requires heap <= timers.Keys
  {
    && d.start <= |log| && heap <= d.from.Keys
    && (forall id :: id in heap ==> timers[id].expiration == d.from[id])
    && (forall k :: d.start <= k < |log| ==> FromDrain(log[k], heap, d))
    && (forall id :: id in d.from && id !in heap ==> WasPopped(id, log, d.start))
    && (forall i, j :: d.start <= i < j < |log| ==> KeyLess(KeyOfPop(log[i]), KeyOfPop(log[j])))
    && (forall i, id :: d.start <= i < |log| && id in heap ==> KeyLess(KeyOfPop(log[i]), Key(d.from[id], id)))
  }

  predicate FromDrain(p: Pop, heap: set<Id>, d: Drain)
  {
    p.id in d.from && p.id !in heap && p.due == d.from[p.id] && p.due <= d.now == p.now
  }

  ghost predicate WasPopped(id: Id, log: seq<Pop>, start: nat)
  {
    exists k :: start <= k < |log| && log[k].id == id
  }

  ghost predicate DrainAgrees(s: State)
    requires s.heap <= s.timers.Keys
  {
    !s.phase.Idle? ==> DrainSoFar(s.timers, s.heap, s.log, s.phase.drain)
  }

  function Delta(b: Birth): nat { if b.interval.Every? then b.interval.delta else 0 }

  /** When a handler is due for the n-th time, counting from 0. */
  function Nominal(b: Birth, n: nat): Time
  {
    if n == 0 then b.start else Nominal(b, n - 1) + Delta(b)
  }

  function PopsOf(log: seq<Pop>, id: Id): seq<Pop>
  {
    if log == [] then []
    else
      var before := PopsOf(log[..|log| - 1], id);
      if log[|log| - 1].id == id then before + [log[|log| - 1]] else before
  }

  /** The pops so far of a handler fit its birth, and so does its next expiration. */
  ghost predicate HistoryFits(b: Birth, t: Timer, ps: seq<Pop>, inQueue: bool, running: bool)
  {
    && (forall k :: 0 <= k < |ps| ==> ps[k].due == Nominal(b, k) && ps[k].due <= ps[k].now)
    && (inQueue ==> t.expiration == Nominal(b, |ps|) && (b.interval.Once? ==> ps == []))
    && (running ==> ps != [] && t.expiration == Nominal(b, |ps| - 1))
    && (b.interval.Once? ==> |ps| <= 1)
    && (t.interval == b.interval || (t.interval.Once? && t.disabled))
  }

  ghost predicate TimerHistory(s: State, id: Id)
    requires id in s.timers && id in s.born
  {
    HistoryFits(s.born[id], s.timers[id], PopsOf(s.log, id),
                id in s.heap || id in s.awaiting, s.phase.Running? && s.phase.id == id)
  }

  ghost predicate HistoriesFit(s: State)
    requires s.born.Keys == s.timers.Keys
  {
    forall id :: id in s.timers ==> TimerHistory(s, id)
  }

  ghost predicate Inv(s: State)
  {
    PlacedOnce(s) && FdCoversHeap(s) && DrainAgrees(s) && HistoriesFit(s)
  }

  // ---------- Every step keeps the invariant ----------

  lemma ActKeepsPlaces(s: State, action: Action)
    requires PlacedOnce(s)
    ensures PlacedOnce(Do(s, action))
  {
    var s' := Do(s, action);
    if action.Add? && action.id !in s.timers {
      forall id | id in s'.timers && !Live(s', id) ensures s'.timers[id].disabled {
        assert s'.awaiting[|s'.awaiting| - 1] == action.id;
        assert forall j :: j in s.awaiting ==> j in s'.awaiting;
        assert !Live(s, id);
      }
    } else {
      assert forall id :: Live(s, id) <==> Live(s', id);
    }
  }

  lemma InsertKeepsPlaces(s: State, at: Time)
    requires PlacedOnce(s) && Enabled(s, Insert(at))
    ensures PlacedOnce(Apply(s, Insert(at)))
  {
  }

  lemma DrainStepKeepsPlaces(s: State, step: Step)
    requires PlacedOnce(s) && Enabled(s, step) && !step.Act? && !step.Insert?
    ensures PlacedOnce(Apply(s, step))
  {
    var s' := Apply(s, step);
    if step.Finish? {
      var id := s.phase.id;
      if IsRepeat(s.timers[id]) {
        assert s'.awaiting[|s.awaiting|] == id;
        assert forall j :: j in s.awaiting ==> j in s'.awaiting;
      }
      assert forall j :: j != id ==> (Live(s, j) <==> Live(s', j));
    } else {
      assert forall id :: Live(s, id) <==> Live(s', id);
    }
  }

  lemma StepKeepsPlaces(s: State, step: Step)
    requires PlacedOnce(s) && Enabled(s, step)
    ensures PlacedOnce(Apply(s, step))
  {
    match step
    case Act(action) => ActKeepsPlaces(s, action);
    case Insert(at) => InsertKeepsPlaces(s, at);
    case _ => DrainStepKeepsPlaces(s, step);
  }

  /** No handler's key changes while it is in the heap. */
  lemma KeysFixedInHeap(s: State, step: Step, id: Id)
    requires PlacedOnce(s) && Enabled(s, step) && id in s.timers && id in Apply(s, step).heap
    ensures id in Apply(s, step).timers && Apply(s, step).timers[id].expiration == s.timers[id].expiration
  {
  }

  lemma InsertKeepsCover(s: State, at: Time)
    requires PlacedOnce(s) && Enabled(s, Insert(at)) && FdCoversHeap(s)
    ensures FdCoversHeap(Inserted(s, at))
  {
  }

  lemma StepKeepsCover(s: State, step: Step)
    requires PlacedOnce(s) && Enabled(s, step) && FdCoversHeap(s)
    requires Apply(s, step).heap <= Apply(s, step).timers.Keys
    ensures FdCoversHeap(Apply(s, step))
  {
    match step
    case Insert(at) => InsertKeepsCover(s, at);
    case Rearm(id, at) => ResetIsExact(s.timers[id].expiration, at);
    case _ =>
  }

  lemma PopKeepsDrain(timers: map<Id, Timer>, heap: set<Id>, log: seq<Pop>, d: Drain, p: Pop)
    requires heap <= timers.Keys && DrainSoFar(timers, heap, log, d)
    requires IsTop(timers, heap, p.id) && p.due == timers[p.id].expiration <= d.now == p.now
    ensures DrainSoFar(timers, heap - {p.id}, log + [p], d)
  {
    var after := log + [p];
    forall id | id in d.from && id !in heap - {p.id} ensures WasPopped(id, after, d.start) {
      if id == p.id {
        assert after[|log|].id == id;
      } else {
        assert WasPopped(id, log, d.start);
        var k :| d.start <= k < |log| && log[k].id == id;
        assert after[k].id == id;
      }
    }
    forall k | d.start <= k < |after| ensures FromDrain(after[k], heap - {p.id}, d) {
      assert k < |log| ==> FromDrain(log[k], heap, d);
    }
  }

  lemma SameKeysKeepDrain(timers: map<Id, Timer>, timers': map<Id, Timer>, heap: set<Id>, log: seq<Pop>, d: Drain)
    requires heap <= timers.Keys && heap <= timers'.Keys && DrainSoFar(timers, heap, log, d)
    requires forall id :: id in heap ==> timers'[id].expiration == timers[id].expiration
    ensures DrainSoFar(timers', heap, log, d)
  {
  }

  lemma ActKeepsDrain(s: State, action: Action)
    requires PlacedOnce(s) && DrainAgrees(s)
    ensures s.heap <= Do(s, action).timers.Keys && DrainAgrees(Do(s, action))
  {
    forall id | id in s.heap ensures id in Do(s, action).timers { ActOnTimer(s, action, id); }
    if !s.phase.Idle? {
      forall id | id in s.heap ensures Do(s, action).timers[id].expiration == s.timers[id].expiration {
        ActOnTimer(s, action, id);
      }
      SameKeysKeepDrain(s.timers, Do(s, action).timers, s.heap, s.log, s.phase.drain);
    }
  }

  lemma DrainBegins(s: State, now: Time)
    requires s.heap <= s.timers.Keys
    ensures DrainSoFar(s.timers, s.heap, s.log, Drain(now, KeysIn(s), |s.log|))
  {
  }

  lemma StepKeepsDrain(s: State, step: Step)
    requires PlacedOnce(s) && Enabled(s, step) && DrainAgrees(s)
    requires Apply(s, step).heap <= Apply(s, step).timers.Keys
    ensures DrainAgrees(Apply(s, step))
  {
    var s' := Apply(s, step);
    match step
    case PopTop(id) => PopKeepsDrain(s.timers, s.heap, s.log, s.phase.drain, s'.log[|s.log|]);
    case Act(action) => ActKeepsDrain(s, action);
    case Finish => SameKeysKeepDrain(s.timers, s'.timers, s.heap, s.log, s.phase.drain);
    case ReadFd(now) => DrainBegins(s, now);
    case _ => assert s'.phase.Idle?;
  }

  lemma {:induction false} NeverPopped(log: seq<Pop>, id: Id)
    requires forall k :: 0 <= k < |log| ==> log[k].id != id
    ensures PopsOf(log, id) == []
  {
    if log != [] {
      NeverPopped(log[..|log| - 1], id);
    }
  }

  /** What an action can do to a handler: never its expiration, and disabled for good. */
  lemma ActOnTimer(s: State, action: Action, id: Id)
    requires id in s.timers
    ensures var s' := Do(s, action);
            && id in s'.timers && s'.timers[id].expiration == s.timers[id].expiration
            && (s.timers[id].disabled ==> s'.timers[id].disabled)
            && (s'.timers[id].interval == s.timers[id].interval
                || (s'.timers[id].interval.Once? && s'.timers[id].disabled))
            && s'.heap == s.heap && s'.phase == s.phase && s'.log == s.log
            && (id in s'.awaiting <==> id in s.awaiting)
            && (id in s.born ==> id in s'.born && s'.born[id] == s.born[id])
  {
  }

  lemma ActKeepsHistory(s: State, action: Action, id: Id)
    requires PlacedOnce(s) && PlacedOnce(Do(s, action)) && id in Do(s, action).timers
    requires id in s.timers ==> TimerHistory(s, id)
    ensures TimerHistory(Do(s, action), id)
  {
    if id in s.timers {
      ActOnTimer(s, action, id);
    } else {
      NeverPopped(s.log, id);
    }
  }

  lemma PopKeepsHistory(s: State, top: Id, id: Id)
    requires PlacedOnce(s) && Enabled(s, PopTop(top)) && id in s.timers && TimerHistory(s, id)
    ensures TimerHistory(Apply(s, PopTop(top)), id)
  {
  }

  lemma FinishKeepsHistory(s: State, id: Id)
    requires PlacedOnce(s) && Enabled(s, Finish) && id in s.timers && TimerHistory(s, id)
    ensures TimerHistory(Finished(s), id)
  {
    var s' := Finished(s);
    assert id in s'.awaiting ==> id in s.awaiting || id == s.phase.id;
  }

  lemma InsertKeepsHistory(s: State, at: Time, id: Id)
    requires PlacedOnce(s) && Enabled(s, Insert(at)) && id in s.timers && TimerHistory(s, id)
    ensures TimerHistory(Inserted(s, at), id)
  {
  }

  lemma StepKeepsHistory(s: State, step: Step, id: Id)
    requires PlacedOnce(s) && Enabled(s, step) && PlacedOnce(Apply(s, step)) && id in Apply(s, step).timers
    requires id in s.timers ==> TimerHistory(s, id)
    ensures TimerHistory(Apply(s, step), id)
  {
    match step
    case Act(action) => ActKeepsHistory(s, action, id);
    case PopTop(top) => PopKeepsHistory(s, top, id);
    case Finish => FinishKeepsHistory(s, id);
    case Insert(at) => InsertKeepsHistory(s, at, id);
    case _ =>
  }

  lemma StepKeepsInv(s: State, step: Step)
    requires Inv(s) && Enabled(s, step)
    ensures Inv(Apply(s, step))
  {
    StepKeepsPlaces(s, step);
    StepKeepsCover(s, step);
    StepKeepsDrain(s, step);
    forall id | id in Apply(s, step).timers ensures TimerHistory(Apply(s, step), id) {
      StepKeepsHistory(s, step, id);
    }
  }

  lemma {:induction false} InvAlways(s: State, steps: seq<Step>, s': State)
    requires Inv(s) && Reaches(s, steps, s')
    ensures Inv(s')
    decreases |steps|
  {
    if steps != [] {
      StepKeepsInv(s, steps[0]);
      InvAlways(Apply(s, steps[0]), steps[1..], s');
    }
  }

  // ---------- What holds over whole runs ----------

  /**
   Main result, no missed timer: outside a drain the timerfd is armed for every handler in the
   heap, at the latest for its expiration or 100 microseconds after the arming call, and from
   then on it is readable.
   */
  lemma NoMissedTimer(steps: seq<Step>, s: State, id: Id, now: Time)
    requires Reaches(INITIAL, steps, s) && s.phase.Idle? && id in s.heap
    ensures id in s.timers && s.fd.Armed? && s.fd.deadline <= Later(s.timers[id].expiration, s.fd.at + LEAST_DELAY)
    ensures now >= Later(s.timers[id].expiration, s.fd.at + LEAST_DELAY) ==> Readable(s.fd, now)
  {
    InvAlways(INITIAL, steps, s);
  }

  /** Every handler is in exactly one place; one in no place is retired for good. */
  lemma InOnePlace(steps: seq<Step>, s: State, id: Id)
    requires Reaches(INITIAL, steps, s) && id in s.timers
    ensures id in s.heap ==> id !in s.awaiting && !(s.phase.Running? && s.phase.id == id)
    ensures id in s.awaiting ==> !(s.phase.Running? && s.phase.id == id)
    ensures NoRepeats(s.awaiting)
    ensures !Live(s, id) ==> s.timers[id].disabled
  {
    InvAlways(INITIAL, steps, s);
  }

  lemma RetiredStays(s: State, step: Step, id: Id)
    requires PlacedOnce(s) && Enabled(s, step) && id in s.timers && !Live(s, id)
    ensures id in Apply(s, step).timers && !Live(Apply(s, step), id)
  {
  }

  lemma {:induction false} RetiredForever(s: State, steps: seq<Step>, s': State, id: Id)
    requires Inv(s) && Reaches(s, steps, s') && id in s.timers && !Live(s, id)
    ensures id in s'.timers && !Live(s', id)
    decreases |steps|
  {
    if steps != [] {
      RetiredStays(s, steps[0], id);
      StepKeepsInv(s, steps[0]);
      RetiredForever(Apply(s, steps[0]), steps[1..], s', id);
    }
  }

  lemma DisabledStays(s: State, step: Step, id: Id)
    requires Enabled(s, step) && id in s.timers && s.timers[id].disabled
    ensures var s' := Apply(s, step);
            && id in s'.timers && s'.timers[id].disabled
            && |s.log| <= |s'.log| <= |s.log| + 1 && s'.log[..|s.log|] == s.log
            && (|s'.log| > |s.log| && s'.log[|s.log|].id == id ==> s'.log[|s.log|].invoked.None?)
  {
  }

  /** Main result: once a disable has taken effect no callback of that handler runs again. */
  lemma {:induction false} NoCallbackAfterDisable(s: State, steps: seq<Step>, s': State, id: Id)
    requires Reaches(s, steps, s') && id in s.timers && s.timers[id].disabled
    ensures |s.log| <= |s'.log| && s'.log[..|s.log|] == s.log
    ensures forall k :: |s.log| <= k < |s'.log| && s'.log[k].id == id ==> s'.log[k].invoked.None?
    ensures id in s'.timers && s'.timers[id].disabled
    decreases |steps|
  {
    if steps != [] {
      var m := Apply(s, steps[0]);
      DisabledStays(s, steps[0], id);
      NoCallbackAfterDisable(m, steps[1..], s', id);
      assert s'.log[..|s.log|] == s'.log[..|m.log|][..|s.log|];
      forall k | |s.log| <= k < |s'.log| && s'.log[k].id == id ensures s'.log[k].invoked.None? {
        assert k < |m.log| ==> s'.log[k] == s'.log[..|m.log|][k];
      }
    }
  }

  lemma {:induction false} NominalClosedForm(b: Birth, n: nat)
    ensures Nominal(b, n) == b.start + n * Delta(b)
  {
    if n > 0 {
      NominalClosedForm(b, n - 1);
      assert n * Delta(b) == (n - 1) * Delta(b) + Delta(b);
    }
  }

  lemma {:induction false} PopsOfAre(log: seq<Pop>, id: Id, k: nat)
    requires k < |PopsOf(log, id)|
    ensures PopsOf(log, id)[k].id == id && PopsOf(log, id)[k] in log
  {
    var before := PopsOf(log[..|log| - 1], id);
    if k < |before| {
      PopsOfAre(log[..|log| - 1], id, k);
    }
  }

  /**
   Main result: the n-th pop of a handler, counting from 0, is for start + n * delta exactly and
   never before that time; a handler that does not repeat is popped, and so invoked, at most once.
   */
  lemma TimerHistories(steps: seq<Step>, s: State, id: Id, n: nat)
    requires Reaches(INITIAL, steps, s) && id in s.timers
    ensures id in s.born
    ensures n < |PopsOf(s.log, id)| ==>
              var p := PopsOf(s.log, id)[n];
              p.id == id && p in s.log && p.due == s.born[id].start + n * Delta(s.born[id]) && p.due <= p.now
    ensures s.born[id].interval.Once? ==> |PopsOf(s.log, id)| <= 1
  {
    InvAlways(INITIAL, steps, s);
    assert TimerHistory(s, id);
    if n < |PopsOf(s.log, id)| {
      NominalClosedForm(s.born[id], n);
      PopsOfAre(s.log, id, n);
    }
  }

  lemma BornOnce(s: State, step: Step, id: Id)
    requires PlacedOnce(s) && Enabled(s, step) && id in s.timers
    ensures id in Apply(s, step).timers && id in Apply(s, step).born && Apply(s, step).born[id] == s.born[id]
  {
  }

  // ---------- What the calls of users do ----------

  /** disable() on the loop thread, or the functor it leaves behind elsewhere, silences the handler. */
  lemma DisableSilences(s: State, id: Id, action: Action)
    requires id in s.timers && (action == RunDisable(id) || (action == Disable(id) && !s.timers[id].disabled))
    ensures var t, t' := s.timers[id], Do(s, action).timers[id];
            && t'.disabled && t'.interval.Once? && t'.callback.None? && t'.expiration == t.expiration
    ensures Do(s, action) == s.(timers := s.timers[id := Timer(s.timers[id].expiration, Once, true, None)])
  {
  }

  /** A handler is disabled after disable(), whether it was before or not. */
  lemma DisableDisables(s: State, id: Id)
    requires id in s.timers
    ensures id in Do(s, Disable(id)).timers && Do(s, Disable(id)).timers[id].disabled
    ensures id in Do(s, RunDisable(id)).timers && Do(s, RunDisable(id)).timers[id].disabled
    ensures Do(s, Disable(id)).log == s.log == Do(s, RunDisable(id)).log
    ensures s.timers[id].disabled ==> Do(s, Disable(id)) == s
  {
  }

  /** Main result: from the call of disable() on, no run invokes a callback of the handler again. */
  lemma SilentAfterDisable(s: State, id: Id, action: Action, steps: seq<Step>, s': State)
    requires id in s.timers && (action == Disable(id) || action == RunDisable(id))
    requires Reaches(Do(s, action), steps, s')
    ensures |s.log| <= |s'.log| && s'.log[..|s.log|] == s.log
    ensures forall k :: |s.log| <= k < |s'.log| && s'.log[k].id == id ==> s'.log[k].invoked.None?
    ensures id in s'.timers && s'.timers[id].disabled
  {
    DisableDisables(s, id);
    NoCallbackAfterDisable(Do(s, action), steps, s', id);
  }

  /** updateCallback sets the callback and nothing else; on a disabled handler the call does nothing. */
  lemma UpdateSetsCallback(s: State, id: Id, callback: Option<CallbackId>)
    requires id in s.timers
    ensures Do(s, RunUpdate(id, callback)) == s.(timers := s.timers[id := s.timers[id].(callback := callback)])
    ensures !s.timers[id].disabled ==> Do(s, Update(id, callback)) == Do(s, RunUpdate(id, callback))
    ensures s.timers[id].disabled ==> Do(s, Update(id, callback)) == s
  {
  }

  /** addTimer makes an enabled handler with its three arguments, which awaits insertion. */
  lemma AddMakesHandler(s: State, id: Id, callback: Option<CallbackId>, when: Time, interval: Interval)
    requires id !in s.timers
    ensures var s' := Do(s, Add(id, callback, when, interval));
            && id in s'.timers && s'.timers[id].expiration == when && s'.timers[id].interval == interval
            && s'.timers[id].callback == callback && !s'.timers[id].disabled
            && s'.awaiting == s.awaiting + [id] && s'.heap == s.heap && s'.log == s.log && s'.fd == s.fd
            && forall j :: j in s.timers ==> j in s'.timers && s'.timers[j] == s.timers[j]
  {
  }

  /** A popped handler invokes the callback it has, and none when it is disabled. */
  lemma PopInvokes(s: State, id: Id)
    requires Enabled(s, PopTop(id))
    ensures var s' := Apply(s, PopTop(id));
            && |s'.log| == |s.log| + 1 && s'.log[|s.log|].id == id && s'.log[..|s.log|] == s.log
            && s'.log[|s.log|].invoked == (if s.timers[id].disabled then None else s.timers[id].callback)
            && s'.timers == s.timers && s'.heap == s.heap - {id} && s'.phase.Running? && s'.phase.id == id
  {
  }

  /**
   After its callback a repeating handler awaits insertion, one interval later and with its callback
   kept; any other is retired for good, disabled and without a callback.
   */
  lemma FinishRepeatsOrRetires(s: State)
    requires PlacedOnce(s) && Enabled(s, Finish)
    ensures var id, s' := s.phase.id, Apply(s, Finish);
            var t := s.timers[id];
            && s'.heap == s.heap && s'.log == s.log && s'.fd == s.fd && s'.phase.Draining?
            && (t.interval.Every? ==>
                  && s'.awaiting == s.awaiting + [id]
                  && s'.timers == s.timers[id := t.(expiration := t.expiration + t.interval.delta)])
            && (t.interval.Once? ==>
                  && s'.awaiting == s.awaiting && !Live(s', id)
                  && s'.timers == s.timers[id := Timer(t.expiration, Once, true, None)])
  {
  }

  /** What awaits insertion first goes into the heap, and the timerfd is armed anew iff it is the next to fire. */
  lemma InsertPutsIntoHeap(s: State, at: Time)
    requires PlacedOnce(s) && Enabled(s, Insert(at))
    ensures var id, s' := s.awaiting[0], Apply(s, Insert(at));
            && s'.heap == s.heap + {id} && [id] + s'.awaiting == s.awaiting && s'.timers == s.timers && s'.log == s.log
            && (IsTop(s.timers, s'.heap, id) ==> s'.fd == Armed(Later(s.timers[id].expiration, at + LEAST_DELAY), at))
            && (!IsTop(s.timers, s'.heap, id) ==> s'.fd == s.fd)
  {
    ResetIsExact(s.timers[s.awaiting[0]].expiration, at);
  }

  // ---------- One drain ----------

  predicate DrainStep(step: Step) { step.Act? || step.PopTop? || step.Finish? }

  lemma {:induction false} DrainIsFixed(s: State, steps: seq<Step>, s': State)
    requires Reaches(s, steps, s') && !s.phase.Idle? && forall i :: 0 <= i < |steps| ==> DrainStep(steps[i])
    ensures !s'.phase.Idle? && s'.phase.drain == s.phase.drain
    decreases |steps|
  {
    if steps != [] {
      DrainIsFixed(Apply(s, steps[0]), steps[1..], s');
    }
  }

  /**
   The pops from log[start] on are those of the simple scheduler: exactly the handlers that are
   due, in strictly increasing order of (expiration, sequence), with exactly the others left.
   */
  ghost predicate TakesTheDue(from: map<Id, Time>, now: Time, log: seq<Pop>, start: nat, left: set<Id>)
  {
    && (forall id :: id in from ==> (from[id] <= now <==> WasPopped(id, log, start)))
    && (forall id :: id in left <==> id in from && from[id] > now)
    && (forall k :: start <= k < |log| ==> log[k].id in from && log[k].due == from[log[k].id] && log[k].now == now)
    && (forall i, j :: start <= i < j < |log| ==> KeyLess(KeyOfPop(log[i]), KeyOfPop(log[j])))
  }

  lemma DrainEnds(s: State, last: Step)
    requires Enabled(s, last) && (last.Rearm? || last.Stop?)
    requires DrainSoFar(s.timers, s.heap, s.log, s.phase.drain)
    ensures TakesTheDue(s.phase.drain.from, s.phase.drain.now, s.log, s.phase.drain.start, s.heap)
  {
  }

  /**
   Main result: whatever the callbacks and other threads do meanwhile, the drain from ReadFd to
   last takes the due handlers as the simple scheduler does.
   */
  lemma DrainTakesTheDue(s: State, now: Time, steps: seq<Step>, s': State, last: Step)
    requires Inv(s) && s.phase.Idle? && Reaches(Apply(s, ReadFd(now)), steps, s')
    requires forall i :: 0 <= i < |steps| ==> DrainStep(steps[i])
    requires Enabled(s', last) && (last.Rearm? || last.Stop?)
    ensures |s.log| <= |s'.log| && TakesTheDue(KeysIn(s), now, s'.log, |s.log|, s'.heap)
  {
    var begun := Apply(s, ReadFd(now));
    StepKeepsInv(s, ReadFd(now));
    InvAlways(begun, steps, s');
    DrainIsFixed(begun, steps, s');
    DrainEnds(s', last);
  }

  // ---------- handleRead as a function ----------

  ghost function TopOf(timers: map<Id, Timer>, heap: set<Id>): (top: Id)
    requires heap != {} && heap <= timers.Keys
    ensures IsTop(timers, heap, top)
    decreases |heap|
  {
    var x :| x in heap;
    if heap == {x} then x
    else
      var y := TopOf(timers, heap - {x});
      if KeyLess(KeyOf(timers, x), KeyOf(timers, y)) then x else y
  }

  /** A drain never gets stuck: it pops, finishes a callback, or ends. */
  lemma DrainProgress(s: State) returns (step: Step)
    requires Inv(s) && !s.phase.Idle?
    ensures Enabled(s, step) && (step.PopTop? || step.Finish? || step.Rearm? || step.Stop?)
    ensures step.PopTop? ==> |Apply(s, step).heap| < |s.heap|
    ensures !step.PopTop? ==> Apply(s, step).heap == s.heap
  {
    if s.phase.Running? {
      return Finish;
    } else if s.heap == {} {
      return Stop;
    }
    var top := TopOf(s.timers, s.heap);
    step := if s.timers[top].expiration <= s.phase.drain.now then PopTop(top) else Rearm(top, 0);
  }

  function DoAll(s: State, actions: seq<Action>): (s': State)
    requires s.heap <= s.timers.Keys
    ensures s'.heap == s.heap && s'.phase == s.phase && s.timers.Keys <= s'.timers.Keys
    decreases |actions|
  {
    if actions == [] then s else DoAll(Do(s, actions[0]), actions[1..])
  }

  /** One turn of the loop of handleRead; actions is what the callback does, if it is invoked. */
  ghost function PopAndRun(s: State, id: Id, actions: seq<Action>): (s': State)
    requires Enabled(s, PopTop(id))
    ensures s'.heap == s.heap - {id} && |s'.heap| < |s.heap| && s'.phase == s.phase
  {
    var popped := Apply(s, PopTop(id));
    Finished(if ToInvoke(s.timers[id]).Some? then DoAll(popped, actions) else popped)
  }

  ghost function DrainAll(s: State, at: Time, scripts: Id -> seq<Action>): State
    requires s.phase.Draining? && s.heap <= s.timers.Keys
    decreases |s.heap|
  {
    if s.heap == {} then Apply(s, Stop)
    else
      var top := TopOf(s.timers, s.heap);
      if s.timers[top].expiration > s.phase.drain.now then Apply(s, Rearm(top, at))
      else DrainAll(PopAndRun(s, top, scripts(top)), at, scripts)
  }

  /** handleRead when scripts says what the callback of each handler does. */
  ghost function AfterHandleRead(s: State, now: Time, at: Time, scripts: Id -> seq<Action>): State
    requires s.phase.Idle? && s.heap <= s.timers.Keys
  {
    DrainAll(Apply(s, ReadFd(now)), at, scripts)
  }

  lemma {:induction false} ReachesAll(s: State, a: seq<Step>, m: State, b: seq<Step>, s': State)
    requires Reaches(s, a, m) && Reaches(m, b, s')
    ensures Reaches(s, a + b, s')
    decreases |a|
  {
    if a == [] {
      assert a + b == b;
    } else {
      ReachesAll(Apply(s, a[0]), a[1..], m, b, s');
      assert (a + b)[1..] == a[1..] + b;
    }
  }

  lemma {:induction false} ActionsAreSteps(s: State, actions: seq<Action>) returns (steps: seq<Step>)
    requires s.heap <= s.timers.Keys
    ensures Reaches(s, steps, DoAll(s, actions)) && forall i :: 0 <= i < |steps| ==> DrainStep(steps[i])
    decreases |actions|
  {
    if actions == [] {
      steps := [];
    } else {
      var rest := ActionsAreSteps(Do(s, actions[0]), actions[1..]);
      steps := [Act(actions[0])] + rest;
      assert steps[1..] == rest;
    }
  }

  lemma TurnIsARun(s: State, id: Id, actions: seq<Action>) returns (steps: seq<Step>)
    requires Enabled(s, PopTop(id))
    ensures Reaches(s, steps, PopAndRun(s, id, actions)) && forall i :: 0 <= i < |steps| ==> DrainStep(steps[i])
  {
    var popped := Apply(s, PopTop(id));
    var acts := ActionsAreSteps(popped, if ToInvoke(s.timers[id]).Some? then actions else []);
    var ran := if ToInvoke(s.timers[id]).Some? then DoAll(popped, actions) else popped;
    assert [Finish][1..] == [];
    assert Reaches(ran, [Finish], Finished(ran));
    ReachesAll(popped, acts, ran, [Finish], Finished(ran));
    steps := [PopTop(id)] + (acts + [Finish]);
    assert steps[1..] == acts + [Finish];
  }

  lemma {:induction false} DrainAllIsARun(s: State, at: Time, scripts: Id -> seq<Action>)
    returns (steps: seq<Step>, m: State, last: Step)
    requires s.phase.Draining? && s.heap <= s.timers.Keys
    ensures Reaches(s, steps, m) && forall i :: 0 <= i < |steps| ==> DrainStep(steps[i])
    ensures Enabled(m, last) && (last.Rearm? || last.Stop?) && Apply(m, last) == DrainAll(s, at, scripts)
    decreases |s.heap|
  {
    if s.heap == {} {
      return [], s, Stop;
    }
    var top := TopOf(s.timers, s.heap);
    if s.timers[top].expiration > s.phase.drain.now {
      return [], s, Rearm(top, at);
    }
    var turn := TurnIsARun(s, top, scripts(top));
    var rest;
    rest, m, last := DrainAllIsARun(PopAndRun(s, top, scripts(top)), at, scripts);
    ReachesAll(s, turn, PopAndRun(s, top, scripts(top)), rest, m);
    steps := turn + rest;
  }

  /** handleRead is a run of the machine, so it keeps the invariant and takes the due handlers. */
  lemma HandleReadTakesTheDue(s: State, now: Time, at: Time, scripts: Id -> seq<Action>)
    requires Inv(s) && s.phase.Idle?
    ensures var s' := AfterHandleRead(s, now, at, scripts);
            && Inv(s') && s'.phase.Idle?
            && |s.log| <= |s'.log| && TakesTheDue(KeysIn(s), now, s'.log, |s.log|, s'.heap)
  {
    var begun := Apply(s, ReadFd(now));
    StepKeepsInv(s, ReadFd(now));
    var steps, m, last := DrainAllIsARun(begun, at, scripts);
    InvAlways(begun, steps, m);
    StepKeepsInv(m, last);
    DrainTakesTheDue(s, now, steps, m, last);
    assert Apply(m, last).log == m.log && Apply(m, last).heap == m.heap;
  }
}
