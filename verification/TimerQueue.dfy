/**
 The classes of src/core/Timer.cpp over the array heap. Each method is tied to the state machine
 of module Timer; a shared_ptr to a handler is the handler's sequence number.
 */
module TimerQueue {

  import opened Timer
  import opened BinaryHeap
  import opened Options

  // ---------- Comparing handlers ----------

  /** timerCmpLessThan, reading the keys as they are at the moment of the call. */
  function ByKey(timers: map<Id, Timer>): (Id, Id) -> bool
  {
    (x, y) => x in timers && y in timers && KeyLess(KeyOf(timers, x), KeyOf(timers, y))
  }

  lemma ByKeyIsStrict(timers: map<Id, Timer>, ids: set<Id>)
    requires ids <= timers.Keys
    ensures StrictWeakOrdering(ByKey(timers), ids)
  {
  }

  /** The heap keeps its order when the keys of its own handlers stay as they were. */
  lemma SameOrder(items: seq<Id>, timers: map<Id, Timer>, timers': map<Id, Timer>)
    requires HeapOrdered(items, ByKey(timers))
    requires forall id :: id in items ==>
               id in timers && id in timers' && timers'[id].expiration == timers[id].expiration
    ensures HeapOrdered(items, ByKey(timers'))
  {
  }

  lemma LeastIsTop(timers: map<Id, Timer>, ids: set<Id>, top: Id)
    requires ids <= timers.Keys && top in ids
    requires forall x :: x in ids ==> !ByKey(timers)(x, top)
    ensures IsTop(timers, ids, top) && TopOf(timers, ids) == top
  {
  }

  lemma OneLess(before: seq<Id>, after: seq<Id>, ids: set<Id>, x: Id)
    requires multiset(before) == multiset(ids) && x in ids
    requires multiset(before) == multiset(after) + multiset{x}
    ensures multiset(after) == multiset(ids - {x})
  {
    forall y ensures multiset(after)[y] == multiset(ids - {x})[y] {
      assert multiset(before)[y] == multiset(ids)[y];
    }
  }

  // ---------- The handler ----------

  class TimerHandler {
    const sequence: Id
    var callback: Option<CallbackId>
    var expiration: Time
    var interval: Interval
    var disabled: bool

    function Value(): Timer
      reads this
    {
      Timer(expiration, interval, disabled, callback)
    }

    constructor (sequence: Id, callback: Option<CallbackId>, when: Time, interval: Interval)
      ensures this.sequence == sequence && Value() == Timer(when, interval, false, callback)
    {
      this.sequence := sequence;
      this.callback, this.expiration, this.interval, this.disabled := callback, when, interval, false;
    }

    /** The effect of disable(), at once on the loop thread. */
    method Disable()
      modifies this
      ensures Value() == DisabledTimer(old(Value()))
      ensures disabled && interval.Once? && callback.None? && expiration == old(expiration)
    {
      interval, disabled, callback := Once, true, None;
    }

    method UpdateCallback(callback: Option<CallbackId>)
      modifies this`callback
      ensures Value() == old(Value()).(callback := callback)
    {
      this.callback := callback;
    }

    /** The end of run(), after the callback. */
    method ClearCallback()
      modifies this`callback
      ensures Value() == AfterInvoke(old(Value()))
      ensures callback == if old(interval).Every? then old(callback) else None
    {
      if !interval.Every? {
        callback := None;
      }
    }

    method ReloadInLoop()
      modifies this`expiration
      ensures Value() == Reloaded(old(Value()))
      ensures expiration == if interval.Every? then old(expiration) + interval.delta else 0
    {
      expiration := if interval.Every? then expiration + interval.delta else 0;
    }

    method MarkDisabled()
      modifies this`disabled
      ensures Value() == old(Value()).(disabled := true)
    {
      disabled := true;
    }
  }

  // ---------- The queue ----------

  ghost predicate IsDue(s: State, now: Time)
  {
    && s.heap != {} && s.heap <= s.timers.Keys
    && s.timers[TopOf(s.timers, s.heap)].expiration <= now
  }

  class TimerQueue {
    var handlers: map<Id, TimerHandler>
    const heap: BinaryHeap<Id>
    var awaiting: seq<Id>
    var fd: Fd

    ghost predicate Holds(timers: map<Id, Timer>)
      reads this, handlers.Values
    {
      && handlers.Keys == timers.Keys
      && forall id :: id in handlers ==> handlers[id].sequence == id && handlers[id].Value() == timers[id]
    }

    ghost predicate HeapHolds(timers: map<Id, Timer>, ids: set<Id>)
      reads heap
    {
      && ids <= timers.Keys
      && AllItems(heap.vec) && HeapOrdered(heap.Items(), ByKey(timers))
      && multiset(heap.Items()) == multiset(ids)
    }

    ghost predicate Represents(s: State)
      reads this, heap, handlers.Values
    {
      Holds(s.timers) && HeapHolds(s.timers, s.heap) && awaiting == s.awaiting && fd == s.fd
    }

    constructor ()
      ensures Represents(INITIAL) && fresh(heap)
    {
      heap := new BinaryHeap();
      handlers, awaiting, fd := map[], [], Disarmed;
    }

    /** The keys as the comparator would read them. */
    function Timers(): map<Id, Timer>
      reads this, handlers.Values
    {
      map id | id in handlers :: handlers[id].Value()
    }

    lemma ItemsAreIds(timers: map<Id, Timer>, ids: set<Id>)
      requires HeapHolds(timers, ids)
      ensures forall id :: id in heap.Items() <==> id in ids
      ensures Elements(heap.Items()) == ids && heap.Size() == |ids|
    {
      forall id ensures id in heap.Items() <==> id in ids {
        assert id in heap.Items() <==> id in multiset(heap.Items());
        assert id in ids <==> id in multiset(ids);
      }
      assert |heap.Items()| == |multiset(heap.Items())| == |multiset(ids)|;
    }

    lemma SameHeap(timers: map<Id, Timer>, timers': map<Id, Timer>, ids: set<Id>)
      requires HeapHolds(timers, ids) && ids <= timers'.Keys
      requires forall id :: id in ids ==> timers'[id].expiration == timers[id].expiration
      ensures HeapHolds(timers', ids)
    {
      ItemsAreIds(timers, ids);
      SameOrder(heap.Items(), timers, timers');
    }

    method AddTimer(id: Id, callback: Option<CallbackId>, when: Time, interval: Interval, ghost s: State)
      requires Represents(s) && id !in handlers
      modifies this
      ensures Represents(Do(s, Add(id, callback, when, interval)))
      ensures fresh(handlers.Values - old(handlers.Values))
    {
      var handler := new TimerHandler(id, callback, when, interval);
      SameHeap(s.timers, s.timers[id := handler.Value()], s.heap);
      handlers := handlers[id := handler];
      awaiting := awaiting + [id];
    }

    method DisableHandler(id: Id, ghost s: State)
      requires Represents(s) && id in handlers
      modifies handlers.Values
      ensures Represents(Do(s, RunDisable(id)))
    {
      SameHeap(s.timers, s.timers[id := DisabledTimer(s.timers[id])], s.heap);
      handlers[id].Disable();
    }

    method UpdateHandler(id: Id, callback: Option<CallbackId>, ghost s: State)
      requires Represents(s) && id in handlers
      modifies handlers.Values
      ensures Represents(Do(s, RunUpdate(id, callback)))
    {
      SameHeap(s.timers, s.timers[id := s.timers[id].(callback := callback)], s.heap);
      handlers[id].UpdateCallback(callback);
    }

    /** What a user does to the handlers on the loop thread, or leaves behind from another thread. */
    method Perform(action: Action, ghost s: State)
      requires Represents(s)
      modifies this, handlers.Values
      ensures Represents(Do(s, action))
      ensures fresh(handlers.Values - old(handlers.Values))
    {
      match action
      case Add(id, callback, when, interval) =>
        if id !in handlers { AddTimer(id, callback, when, interval, s); }
      case Disable(id) =>
        if id in handlers && !handlers[id].disabled { DisableHandler(id, s); }
      case Update(id, callback) =>
        if id in handlers && !handlers[id].disabled { UpdateHandler(id, callback, s); }
      case RunDisable(id) =>
        if id in handlers { DisableHandler(id, s); }
      case RunUpdate(id, callback) =>
        if id in handlers { UpdateHandler(id, callback, s); }
    }

    method PerformAll(actions: seq<Action>, ghost s: State)
      requires Represents(s)
      modifies this, handlers.Values
      ensures Represents(DoAll(s, actions))
      ensures fresh(handlers.Values - old(handlers.Values))
    {
      ghost var now := s;
      for i := 0 to |actions|
        invariant Represents(now) && DoAll(now, actions[i..]) == DoAll(s, actions)
        invariant fresh(handlers.Values - old(handlers.Values))
      {
        Perform(actions[i], now);
        assert actions[i..][1..] == actions[i + 1..];
        now := Do(now, actions[i]);
      }
    }

    method ResetTimerFd(expiration: Time, at: Time)
      modifies this`fd
      ensures fd == SetTime(HowMuchTimeFromNow(expiration, at), at)
    {
      fd := SetTime(HowMuchTimeFromNow(expiration, at), at);
    }

    lemma TopIsTop(timers: map<Id, Timer>, ids: set<Id>)
      requires HeapHolds(timers, ids) && ids != {}
      ensures |heap.Items()| > 0 && heap.Items()[0] in ids
      ensures IsTop(timers, ids, heap.Items()[0]) && TopOf(timers, ids) == heap.Items()[0]
    {
      ItemsAreIds(timers, ids);
      ByKeyIsStrict(timers, ids);
      var items := heap.Items();
      forall x | x in ids ensures !ByKey(timers)(x, items[0]) {
        var i :| 0 <= i < |items| && items[i] == x;
        TopIsLeast(items, ByKey(timers), i);
      }
      LeastIsTop(timers, ids, items[0]);
    }

    method HeapInsert(timers: map<Id, Timer>, id: Id, ghost ids: set<Id>)
      requires HeapHolds(timers, ids) && id in timers && id !in ids
      modifies heap
      ensures HeapHolds(timers, ids + {id})
    {
      ItemsAreIds(timers, ids);
      ByKeyIsStrict(timers, ids + {id});
      var _ := heap.Insert(ByKey(timers), id);
      assert multiset(ids + {id}) == multiset(ids) + multiset{id};
    }

    method HeapTop(timers: map<Id, Timer>, ghost ids: set<Id>) returns (top: Id)
      requires HeapHolds(timers, ids) && ids != {}
      ensures top == TopOf(timers, ids) && IsTop(timers, ids, top)
    {
      TopIsTop(timers, ids);
      top := heap.Top(ByKey(timers));
    }

    method HeapPop(timers: map<Id, Timer>, ghost ids: set<Id>) returns (top: Id)
      requires HeapHolds(timers, ids) && ids != {}
      modifies heap
      ensures top == TopOf(timers, ids) && IsTop(timers, ids, top) && HeapHolds(timers, ids - {top})
    {
      ItemsAreIds(timers, ids);
      TopIsTop(timers, ids);
      ByKeyIsStrict(timers, ids);
      ghost var items := heap.Items();
      top := heap.PopTop(ByKey(timers));
      OneLess(items, heap.Items(), ids, top);
    }

    lemma TimersAre(timers: map<Id, Timer>)
      requires Holds(timers)
      ensures Timers() == timers
    {
    }

    method ArmIfTop(id: Id, at: Time, ghost s: State, ghost goal: State)
      requires Represents(s) && id in s.heap
      requires goal == if IsTop(s.timers, s.heap, id)
                       then s.(fd := SetTime(HowMuchTimeFromNow(s.timers[id].expiration, at), at)) else s
      modifies this`fd
      ensures Represents(goal)
    {
      TimersAre(s.timers);
      var top := HeapTop(Timers(), s.heap);
      if top == id {
        ResetTimerFd(handlers[id].expiration, at);
      }
    }

    method MoveToHeap(ghost s: State, ghost moved: State) returns (id: Id)
      requires Represents(s) && PlacedOnce(s) && s.awaiting != []
      requires moved == s.(heap := s.heap + {s.awaiting[0]}, awaiting := s.awaiting[1..])
      modifies this`awaiting, heap
      ensures id == s.awaiting[0] && Represents(moved)
    {
      id := awaiting[0];
      assert id in s.awaiting;
      awaiting := awaiting[1..];
      TimersAre(s.timers);
      var timers := Timers();
      HeapInsert(timers, id, s.heap);
    }

    /** addTimerInLoop for the next handler that awaits it. */
    method AddTimerInLoop(at: Time, ghost s: State)
      requires Represents(s) && Enabled(s, Insert(at)) && PlacedOnce(s)
      modifies this`awaiting, this`fd, heap
      ensures Represents(Inserted(s, at))
    {
      ghost var moved := s.(heap := s.heap + {s.awaiting[0]}, awaiting := s.awaiting[1..]);
      var id := MoveToHeap(s, moved);
      ArmIfTop(id, at, moved, Inserted(s, at));
    }

    /** run() of a popped handler, and what handleRead does with it afterwards. */
    method RunPopped(id: Id, actions: seq<Action>, ghost s: State)
      requires Represents(s) && s.phase.Running? && s.phase.id == id && id in s.timers && id !in s.heap
      modifies this, handlers.Values
      ensures Represents(Finished(if ToInvoke(s.timers[id]).Some? then DoAll(s, actions) else s))
      ensures fresh(handlers.Values - old(handlers.Values))
    {
      ghost var ran := s;
      if !handlers[id].disabled && handlers[id].callback.Some? {
        PerformAll(actions, s);
        ran := DoAll(s, actions);
      }
      FinishPopped(id, ran);
    }

    method FinishPopped(id: Id, ghost s: State)
      requires Represents(s) && Enabled(s, Finish) && s.phase.id == id && id !in s.heap
      modifies this`awaiting, handlers.Values
      ensures Represents(Finished(s))
    {
      var handler := handlers[id];
      SameHeap(s.timers, Finished(s).timers, s.heap);
      handler.ClearCallback();
      if handler.interval.Every? {
        handler.ReloadInLoop();
        awaiting := awaiting + [id];
      } else {
        handler.MarkDisabled();
      }
    }

    /** One turn of the loop of handleRead. */
    method RunDue(scripts: Id -> seq<Action>, ghost s: State)
      requires Represents(s) && s.phase.Draining? && IsDue(s, s.phase.drain.now)
      modifies this, heap, handlers.Values
      ensures Represents(PopAndRun(s, TopOf(s.timers, s.heap), scripts(TopOf(s.timers, s.heap))))
      ensures fresh(handlers.Values - old(handlers.Values))
    {
      TimersAre(s.timers);
      var id := HeapPop(Timers(), s.heap);
      RunPopped(id, scripts(id), Apply(s, PopTop(id)));
    }

    /** The condition of the loop of handleRead. */
    method TopIsDue(now: Time, ghost s: State) returns (due: bool)
      requires Represents(s)
      ensures due <==> IsDue(s, now)
    {
      ItemsAreIds(s.timers, s.heap);
      if heap.Size() == 0 {
        return false;
      }
      TimersAre(s.timers);
      var top := HeapTop(Timers(), s.heap);
      return handlers[top].expiration <= now;
    }

    method NextTurn(now: Time, scripts: Id -> seq<Action>, ghost at: Time, ghost s: State)
      returns (due: bool, ghost s': State)
      requires Represents(s) && s.phase.Draining? && s.phase.drain.now == now && IsDue(s, now)
      modifies this, heap, handlers.Values
      ensures Represents(s') && s'.phase == s.phase && |s'.heap| < |s.heap|
      ensures DrainAll(s', at, scripts) == DrainAll(s, at, scripts)
      ensures due <==> IsDue(s', now)
      ensures fresh(handlers.Values - old(handlers.Values))
    {
      RunDue(scripts, s);
      s' := PopAndRun(s, TopOf(s.timers, s.heap), scripts(TopOf(s.timers, s.heap)));
      due := TopIsDue(now, s');
    }

    /** The end of handleRead. */
    method RearmIfAny(at: Time, ghost scripts: Id -> seq<Action>, ghost s: State, ghost goal: State)
      requires Represents(s) && s.phase.Draining? && !IsDue(s, s.phase.drain.now)
      requires goal == DrainAll(s, at, scripts)
      modifies this`fd
      ensures Represents(goal)
    {
      ItemsAreIds(s.timers, s.heap);
      if heap.Size() > 0 {
        TimersAre(s.timers);
        var top := HeapTop(Timers(), s.heap);
        ResetTimerFd(handlers[top].expiration, at);
      }
    }

    /** The loop of handleRead. */
    method DrainLoop(now: Time, scripts: Id -> seq<Action>, ghost at: Time, ghost s: State) returns (ghost state: State)
      requires Represents(s) && s.phase.Draining? && s.phase.drain.now == now
      modifies this, heap, handlers.Values
      ensures Represents(state) && state.phase == s.phase && !IsDue(state, now)
      ensures DrainAll(state, at, scripts) == DrainAll(s, at, scripts)
      ensures fresh(handlers.Values - old(handlers.Values))
    {
      state := s;
      ghost var goal := DrainAll(s, at, scripts);
      var due := TopIsDue(now, state);
      while due
        invariant Represents(state) && state.phase == s.phase
        invariant due <==> IsDue(state, now)
        invariant DrainAll(state, at, scripts) == goal
        invariant fresh(handlers.Values - old(handlers.Values))
        decreases |state.heap|
      {
        due, state := NextTurn(now, scripts, at, state);
      }
    }

    method ReadTimerFd(now: Time, ghost s: State)
      requires Represents(s) && s.phase.Idle?
      modifies this`fd
      ensures Represents(Apply(s, ReadFd(now)))
    {
      if Readable(fd, now) {
        fd := Disarmed;
      }
    }

    /** scripts says what the callback of each handler does. */
    method HandleRead(now: Time, at: Time, scripts: Id -> seq<Action>, ghost s: State)
      requires Represents(s) && s.phase.Idle?
      modifies this, heap, handlers.Values
      ensures Represents(AfterHandleRead(s, now, at, scripts))
      ensures fresh(handlers.Values - old(handlers.Values))
    {
      ReadTimerFd(now, s);
      ghost var state := DrainLoop(now, scripts, at, Apply(s, ReadFd(now)));
      RearmIfAny(at, scripts, state, AfterHandleRead(s, now, at, scripts));
    }
  }
}
