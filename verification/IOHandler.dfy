/**
 I/O handlers of src/core/IOHandler.cpp and their registration with epoll
 (EventLoop::updateIOHandler). Everything here happens on the loop thread, where runInLoop runs
 its argument at once.
 */
module IOHandler {
  import opened Options

  type Fd = nat
  type CallbackId = nat

  /** The epoll event bits; a mask is a set of them. */
  datatype Bit = IN | PRI | OUT | ERR | HUP | RDHUP
  type Mask = set<Bit>

  datatype Status = Created | Enabled | Disabled

  /** The four kinds of callback. */
  datatype Slot = Close | Error | Read | Write

  function BitOf(slot: Slot): Bit
  {
    match slot
    case Close => RDHUP
    case Error => ERR
    case Read => IN
    case Write => OUT
  }

  /** A callback that is not set is absent from the map. */
  datatype Handler = Handler(status: Status, events: Mask, callbacks: map<Slot, CallbackId>)

  /** The calls made to epoll_ctl. */
  datatype Ctl = Add(fd: Fd, mask: Mask) | Modify(fd: Fd, mask: Mask) | Remove(fd: Fd)

  datatype World = World(handlers: map<Fd, Handler>, epoll: map<Fd, Mask>, quit: bool, calls: seq<Ctl>)

  datatype Op =
    | Enable(fd: Fd)
    | Disable(fd: Fd)
    | SetEvent(fd: Fd, slot: Slot, on: bool)
    | SetCallback(fd: Fd, slot: Slot, callback: Option<CallbackId>)

  // ---------- The operations ----------

  const FRESH_HANDLER := Handler(Created, {}, map[])

  /** epoll_ctl: adding a descriptor twice, or changing one that is absent, fails and changes nothing. */
  function Control(epoll: map<Fd, Mask>, call: Ctl): map<Fd, Mask>
  {
    match call
    case Add(fd, mask) => if fd in epoll then epoll else epoll[fd := mask]
    case Modify(fd, mask) => if fd in epoll then epoll[fd := mask] else epoll
    case Remove(fd) => epoll - {fd}
  }

  predicate Legal(epoll: map<Fd, Mask>, call: Ctl)
  {
    if call.Add? then call.fd !in epoll else call.fd in epoll
  }

  /** updateInLoop: change the status and tell epoll. */
  function AfterUpdateInLoop(w: World, fd: Fd, h: Handler, next: Status): World
  {
    var addNew := (h.status.Created? || h.status.Disabled?) && next.Enabled?;
    var h' := h.(status := next);
    var call := if addNew then Add(fd, h.events) else if next.Enabled? then Modify(fd, h.events) else Remove(fd);
    w.(epoll := Control(w.epoll, call),
       calls := w.calls + [call],
       handlers := w.handlers[fd := if next.Disabled? then h'.(callbacks := map[]) else h'])
  }

  /** update: disabling a handler that is not enabled needs no epoll call. */
  function AfterUpdate(w: World, fd: Fd, h: Handler, next: Status): World
  {
    if h.status.Disabled? && next.Disabled? then w.(handlers := w.handlers[fd := h])
    else if h.status.Created? && next.Disabled? then w.(handlers := w.handlers[fd := h.(status := Disabled)])
    else AfterUpdateInLoop(w, fd, h, next)
  }

  function SetEventBit(w: World, fd: Fd, h: Handler, slot: Slot, on: bool): World
  {
    var h' := h.(events := if on then h.events + {BitOf(slot)} else h.events - {BitOf(slot)});
    if h.status.Enabled? then AfterUpdateInLoop(w, fd, h', Enabled) else w.(handlers := w.handlers[fd := h'])
  }

  function WithCallback(h: Handler, slot: Slot, callback: Option<CallbackId>): Handler
  {
    h.(callbacks := if callback.Some? then h.callbacks[slot := callback.value] else h.callbacks - {slot})
  }

  function Apply(w: World, op: Op): World
  {
    var h := if op.fd in w.handlers then w.handlers[op.fd] else FRESH_HANDLER;
    match op
    case Enable(fd) => AfterUpdate(w, fd, h, Enabled)
    case Disable(fd) =>
      var cleaned := h.(callbacks := map[]);
      if w.quit then w.(handlers := w.handlers[fd := cleaned.(status := Disabled)])
      else AfterUpdate(w, fd, cleaned, Disabled)
    case SetEvent(fd, slot, on) => SetEventBit(w, fd, h, slot, on)
    case SetCallback(fd, slot, callback) => SetEventBit(w, fd, WithCallback(h, slot, callback), slot, callback.Some?)
  }

  function Run(w: World, ops: seq<Op>): World
    decreases |ops|
  {
    if ops == [] then w else Run(Apply(w, ops[0]), ops[1..])
  }

  // ---------- Registration ----------

  /** A descriptor is in the epoll set exactly while its handler is enabled, with the handler's mask. */
  ghost predicate Agreement(w: World)
  {
    && (forall fd :: fd in w.epoll <==> fd in w.handlers && w.handlers[fd].status.Enabled?)
    && (forall fd :: fd in w.epoll ==> w.epoll[fd] == w.handlers[fd].events)
  }

  /** The disabling of an enabled handler that epoll is never told about. */
  predicate SilentDisable(w: World, op: Op)
  {
    w.quit && op.Disable? && op.fd in w.handlers && w.handlers[op.fd].status.Enabled?
  }

  lemma UnregisteredAgrees(w: World, fd: Fd, h: Handler)
    requires Agreement(w) && fd !in w.epoll && !h.status.Enabled?
    ensures Agreement(w.(handlers := w.handlers[fd := h]))
  {
  }

  lemma UpdateAgrees(w: World, fd: Fd, h: Handler, next: Status)
    requires Agreement(w) && (h.status.Enabled? <==> fd in w.epoll) && !next.Created?
    ensures Agreement(AfterUpdate(w, fd, h, next))
  {
  }

  lemma SetEventBitAgrees(w: World, fd: Fd, h: Handler, slot: Slot, on: bool)
    requires Agreement(w) && (h.status.Enabled? <==> fd in w.epoll)
    ensures Agreement(SetEventBit(w, fd, h, slot, on))
  {
  }

  /** Main result: an operation keeps the agreement unless it disables an enabled handler after quit_ is set. */
  lemma AgreementKept(w: World, op: Op)
    requires Agreement(w)
    ensures Agreement(Apply(w, op)) <==> !SilentDisable(w, op)
  {
    var h := if op.fd in w.handlers then w.handlers[op.fd] else FRESH_HANDLER;
    match op
    case Enable(fd) => UpdateAgrees(w, fd, h, Enabled);
    case SetEvent(fd, slot, on) => SetEventBitAgrees(w, fd, h, slot, on);
    case SetCallback(fd, slot, callback) =>
      SetEventBitAgrees(w, fd, WithCallback(h, slot, callback), slot, callback.Some?);
    case Disable(fd) =>
      var cleaned := h.(callbacks := map[]);
      if !w.quit {
        UpdateAgrees(w, fd, cleaned, Disabled);
      } else if fd !in w.epoll {
        UnregisteredAgrees(w, fd, cleaned.(status := Disabled));
      } else {
        assert fd in Apply(w, op).epoll && !Apply(w, op).handlers[fd].status.Enabled?;
      }
  }

  /** Every epoll_ctl call made from state w on is legal at the moment it is made. */
  ghost predicate CallsLegal(epoll: map<Fd, Mask>, calls: seq<Ctl>)
    decreases |calls|
  {
    calls != [] ==> Legal(epoll, calls[0]) && CallsLegal(Control(epoll, calls[0]), calls[1..])
  }

  function ControlAll(epoll: map<Fd, Mask>, calls: seq<Ctl>): map<Fd, Mask>
    decreases |calls|
  {
    if calls == [] then epoll else ControlAll(Control(epoll, calls[0]), calls[1..])
  }

  /** An operation makes at most one call, and that call cannot fail. */
  lemma CallIsLegal(w: World, op: Op)
    requires Agreement(w)
    ensures var w' := Apply(w, op);
            || (w'.calls == w.calls && w'.epoll == w.epoll)
            || (|w'.calls| == |w.calls| + 1 && w'.calls[..|w.calls|] == w.calls
                && Legal(w.epoll, w'.calls[|w.calls|]) && w'.epoll == Control(w.epoll, w'.calls[|w.calls|]))
    ensures Apply(w, op).quit == w.quit
  {
  }

  /**
   Main result: before quit_ is set, any sequence of operations over any handlers keeps the
   agreement, and no epoll_ctl call ever fails.
   */
  lemma {:induction false} RegistrationAgrees(w: World, ops: seq<Op>)
    requires Agreement(w) && !w.quit
    ensures var w' := Run(w, ops);
            && Agreement(w') && !w'.quit
            && |w.calls| <= |w'.calls| && w'.calls[..|w.calls|] == w.calls
            && CallsLegal(w.epoll, w'.calls[|w.calls|..])
            && w'.epoll == ControlAll(w.epoll, w'.calls[|w.calls|..])
    decreases |ops|
  {
    if ops == [] {
      assert w.calls[|w.calls|..] == [];
    } else {
      AgreementKept(w, ops[0]);
      CallIsLegal(w, ops[0]);
      var m := Apply(w, ops[0]);
      RegistrationAgrees(m, ops[1..]);
      var w' := Run(m, ops[1..]);
      if |m.calls| > |w.calls| {
        var n := |w.calls|;
        assert w'.calls[n..][0] == w'.calls[..n + 1][n] == m.calls[n];
        assert w'.calls[n..][1..] == w'.calls[n + 1..];
        assert w'.calls[..n] == w'.calls[..n + 1][..n];
      }
    }
  }

  // ---------- What the calls do to a handler ----------

  /** The handler before a call; handleIO makes a fresh one for an unknown descriptor. */
  function Before(w: World, fd: Fd): Handler
  {
    if fd in w.handlers then w.handlers[fd] else Handler(Created, {}, map[])
  }

  /** The call left every other descriptor and its handler alone. */
  ghost predicate OnlyTouches(w: World, w': World, fd: Fd)
  {
    && fd in w'.handlers && w'.quit == w.quit
    && (forall g :: g != fd ==> (g in w'.handlers <==> g in w.handlers) && (g in w'.epoll <==> g in w.epoll))
    && (forall g :: g != fd && g in w.handlers ==> w'.handlers[g] == w.handlers[g])
    && (forall g :: g != fd && g in w.epoll ==> w'.epoll[g] == w.epoll[g])
  }

  /** The mask changed in this one bit at most, which is now on or off. */
  ghost predicate OnlyBit(before: Mask, after: Mask, bit: Bit, on: bool)
  {
    (bit in after <==> on) && forall b :: b != bit ==> (b in after <==> b in before)
  }

  /** enable(): the handler is enabled with the events and callbacks it had, and epoll watches those events. */
  lemma EnableRegisters(w: World, fd: Fd)
    requires Agreement(w)
    ensures var w' := Apply(w, Op.Enable(fd));
            && OnlyTouches(w, w', fd) && w'.handlers[fd].status == Enabled
            && w'.handlers[fd].events == Before(w, fd).events && w'.handlers[fd].callbacks == Before(w, fd).callbacks
            && fd in w'.epoll && w'.epoll[fd] == Before(w, fd).events
  {
  }

  /** disable(): no callback is left, and before quit_ the descriptor leaves epoll; after it epoll is not told. */
  lemma DisableUnregisters(w: World, fd: Fd)
    requires Agreement(w)
    ensures var w' := Apply(w, Op.Disable(fd));
            && OnlyTouches(w, w', fd) && w'.handlers[fd].status == Disabled
            && w'.handlers[fd].events == Before(w, fd).events && w'.handlers[fd].callbacks == map[]
            && (!w.quit ==> fd !in w'.epoll) && (w.quit ==> w'.epoll == w.epoll && w'.calls == w.calls)
  {
  }

  /** The events changed in the bit that the slot stands for: EPOLLIN, EPOLLOUT, EPOLLRDHUP, EPOLLERR. */
  ghost predicate EventSwitched(slot: Slot, before: Mask, after: Mask, on: bool)
  {
    && (slot == Read ==> OnlyBit(before, after, IN, on))
    && (slot == Write ==> OnlyBit(before, after, OUT, on))
    && (slot == Close ==> OnlyBit(before, after, RDHUP, on))
    && (slot == Error ==> OnlyBit(before, after, ERR, on))
  }

  /** The handler h' took the place of h: only its own callback and event changed, and epoll knows the mask. */
  ghost predicate Reregistered(w: World, w': World, fd: Fd)
  {
    && OnlyTouches(w, w', fd) && w'.handlers[fd].status == Before(w, fd).status
    && (fd in w'.epoll <==> Before(w, fd).status == Enabled)
    && (fd in w'.epoll ==> w'.epoll[fd] == w'.handlers[fd].events)
  }

  lemma SetEventBitReregisters(w: World, fd: Fd, h: Handler, slot: Slot, on: bool)
    requires Agreement(w) && h.status == Before(w, fd).status
    ensures Reregistered(w, SetEventBit(w, fd, h, slot, on), fd)
  {
    SetEventBitAgrees(w, fd, h, slot, on);
  }

  lemma SetEventBitSwitches(w: World, fd: Fd, h: Handler, slot: Slot, on: bool)
    ensures var h' := SetEventBit(w, fd, h, slot, on).handlers[fd];
            EventSwitched(slot, h.events, h'.events, on) && h'.status == h.status && h'.callbacks == h.callbacks
  {
  }

  /** Each setter names its own epoll bit; epoll learns of the new mask while the handler is enabled. */
  lemma SetEventChangesOneBit(w: World, fd: Fd, slot: Slot, on: bool)
    requires Agreement(w)
    ensures var w' := Apply(w, Op.SetEvent(fd, slot, on));
            && Reregistered(w, w', fd) && w'.handlers[fd].callbacks == Before(w, fd).callbacks
            && EventSwitched(slot, Before(w, fd).events, w'.handlers[fd].events, on)
  {
    SetEventBitReregisters(w, fd, Before(w, fd), slot, on);
    SetEventBitSwitches(w, fd, Before(w, fd), slot, on);
  }

  /** A callback is stored in its own slot, or taken out of it, and its event is switched with it. */
  lemma SetCallbackChangesOneSlot(w: World, fd: Fd, slot: Slot, callback: Option<CallbackId>)
    requires Agreement(w)
    ensures var w' := Apply(w, Op.SetCallback(fd, slot, callback));
            var before, after := Before(w, fd).callbacks, w'.handlers[fd].callbacks;
            && Reregistered(w, w', fd)
            && EventSwitched(slot, Before(w, fd).events, w'.handlers[fd].events, callback.Some?)
            && (slot in after <==> callback.Some?) && (callback.Some? ==> after[slot] == callback.value)
            && (forall other :: other != slot ==> (other in after <==> other in before))
            && (forall other :: other != slot && other in before ==> after[other] == before[other])
  {
    var h := WithCallback(Before(w, fd), slot, callback);
    SetEventBitReregisters(w, fd, h, slot, callback.Some?);
    SetEventBitSwitches(w, fd, h, slot, callback.Some?);
  }

  // The state of a descriptor told by the calls alone: the last call that speaks of it decides.

  /** The last enable() or disable() of the handler. */
  function StatusBy(ops: seq<Op>, fd: Fd, before: Status): Status
  {
    if ops == [] then before
    else
      var op := ops[|ops| - 1];
      if op == Op.Enable(fd) then Enabled
      else if op == Op.Disable(fd) then Disabled
      else StatusBy(ops[..|ops| - 1], fd, before)
  }

  /** The setters of an event are its own and that of its callback; disable() leaves the events alone. */
  function SwitchedBy(op: Op, fd: Fd, slot: Slot): Option<bool>
  {
    match op
    case SetEvent(f, s, on) => if f == fd && s == slot then Some(on) else Option.None
    case SetCallback(f, s, callback) => if f == fd && s == slot then Some(callback.Some?) else Option.None
    case _ => Option.None
  }

  predicate EventBy(ops: seq<Op>, fd: Fd, slot: Slot, before: bool)
  {
    if ops == [] then before
    else
      var on := SwitchedBy(ops[|ops| - 1], fd, slot);
      if on.Some? then on.value else EventBy(ops[..|ops| - 1], fd, slot, before)
  }

  /** The last setter of the callback; disable() drops it. */
  function CallbackBy(ops: seq<Op>, fd: Fd, slot: Slot, before: Option<CallbackId>): Option<CallbackId>
  {
    if ops == [] then before
    else
      var op := ops[|ops| - 1];
      if op == Op.Disable(fd) then Option.None
      else if op.SetCallback? && op.fd == fd && op.slot == slot then op.callback
      else CallbackBy(ops[..|ops| - 1], fd, slot, before)
  }

  function CallbackIn(h: Handler, slot: Slot): Option<CallbackId>
  {
    if slot in h.callbacks then Some(h.callbacks[slot]) else Option.None
  }

  lemma {:induction false} RunLast(w: World, ops: seq<Op>)
    requires ops != []
    ensures Run(w, ops) == Apply(Run(w, ops[..|ops| - 1]), ops[|ops| - 1])
    decreases |ops|
  {
    if |ops| > 1 {
      RunLast(Apply(w, ops[0]), ops[1..]);
      assert ops[1..][..|ops| - 2] == ops[..|ops| - 1][1..];
    }
  }

  ghost predicate EventsFollow(events: Mask, ops: seq<Op>, fd: Fd, before: Mask)
  {
    && (IN in events <==> EventBy(ops, fd, Read, IN in before))
    && (OUT in events <==> EventBy(ops, fd, Write, OUT in before))
    && (RDHUP in events <==> EventBy(ops, fd, Close, RDHUP in before))
    && (ERR in events <==> EventBy(ops, fd, Error, ERR in before))
    && (PRI in events <==> PRI in before) && (HUP in events <==> HUP in before)
  }

  /** The handler is what the calls ops, from a handler like h on, have made of it. */
  ghost predicate Follows(h': Handler, ops: seq<Op>, fd: Fd, h: Handler)
  {
    && h'.status == StatusBy(ops, fd, h.status) && EventsFollow(h'.events, ops, fd, h.events)
    && forall slot :: CallbackIn(h', slot) == CallbackBy(ops, fd, slot, CallbackIn(h, slot))
  }

  /** What a call makes of the handler h of fd, field by field. */
  ghost predicate ByOneCall(op: Op, fd: Fd, h: Handler, h': Handler)
  {
    if op.fd != fd then h' == h
    else
      match op
      case Enable(_) => h'.status == Enabled && h'.events == h.events && h'.callbacks == h.callbacks
      case Disable(_) => h'.status == Disabled && h'.events == h.events && h'.callbacks == map[]
      case SetEvent(_, slot, on) =>
        h'.status == h.status && EventSwitched(slot, h.events, h'.events, on) && h'.callbacks == h.callbacks
      case SetCallback(_, slot, callback) =>
        && h'.status == h.status && EventSwitched(slot, h.events, h'.events, callback.Some?)
        && forall s :: CallbackIn(h', s) == if s == slot then callback else CallbackIn(h, s)
  }

  lemma CallChangesItsFields(w: World, op: Op, fd: Fd)
    ensures ByOneCall(op, fd, Before(w, fd), Before(Apply(w, op), fd))
  {
    var h := Before(w, fd);
    if op.fd == fd && op.SetEvent? {
      SetEventBitSwitches(w, fd, h, op.slot, op.on);
    } else if op.fd == fd && op.SetCallback? {
      SetEventBitSwitches(w, fd, WithCallback(h, op.slot, op.callback), op.slot, op.callback.Some?);
    }
  }

  lemma SwitchedOrNot(op: Op, fd: Fd, slot: Slot, bit: Bit, h: Handler, h': Handler)
    requires ByOneCall(op, fd, h, h')
    requires (slot == Read && bit == IN) || (slot == Write && bit == OUT)
             || (slot == Close && bit == RDHUP) || (slot == Error && bit == ERR)
    ensures var on := SwitchedBy(op, fd, slot); bit in h'.events <==> if on.Some? then on.value else bit in h.events
  {
  }

  lemma NeverSwitched(op: Op, fd: Fd, h: Handler, h': Handler)
    requires ByOneCall(op, fd, h, h')
    ensures (PRI in h'.events <==> PRI in h.events) && (HUP in h'.events <==> HUP in h.events)
  {
  }

  lemma LastCallDecidesEvents(ops: seq<Op>, fd: Fd, before: Mask, h: Handler, h': Handler)
    requires ops != [] && EventsFollow(h.events, ops[..|ops| - 1], fd, before)
    requires ByOneCall(ops[|ops| - 1], fd, h, h')
    ensures EventsFollow(h'.events, ops, fd, before)
  {
    var op := ops[|ops| - 1];
    SwitchedOrNot(op, fd, Read, IN, h, h');
    SwitchedOrNot(op, fd, Write, OUT, h, h');
    SwitchedOrNot(op, fd, Close, RDHUP, h, h');
    SwitchedOrNot(op, fd, Error, ERR, h, h');
    NeverSwitched(op, fd, h, h');
  }

  lemma LastCallDecides(ops: seq<Op>, fd: Fd, before: Handler, h: Handler, h': Handler)
    requires ops != [] && Follows(h, ops[..|ops| - 1], fd, before) && ByOneCall(ops[|ops| - 1], fd, h, h')
    ensures Follows(h', ops, fd, before)
  {
    LastCallDecidesEvents(ops, fd, before.events, h, h');
  }

  lemma {:induction false} HandlerByHistory(w: World, ops: seq<Op>, fd: Fd)
    ensures Follows(Before(Run(w, ops), fd), ops, fd, Before(w, fd))
    decreases |ops|
  {
    if ops != [] {
      HandlerByHistory(w, ops[..|ops| - 1], fd);
      RunLast(w, ops);
      var m := Run(w, ops[..|ops| - 1]);
      CallChangesItsFields(m, ops[|ops| - 1], fd);
      LastCallDecides(ops, fd, Before(w, fd), Before(m, fd), Before(Run(w, ops), fd));
    }
  }

  /**
   Main result: whatever the handlers of a loop are told before quit_, epoll watches a descriptor iff
   the last of its enable() and disable() calls was an enable(), and then for the events whose last
   setters switched them on.
   */
  lemma EpollFollowsHistory(w: World, ops: seq<Op>, fd: Fd)
    requires w.handlers == map[] && w.epoll == map[] && !w.quit
    ensures var epoll := Run(w, ops).epoll;
            && (fd in epoll <==> StatusBy(ops, fd, Created) == Enabled)
            && (fd in epoll ==>
                  && (IN in epoll[fd] <==> EventBy(ops, fd, Read, false))
                  && (OUT in epoll[fd] <==> EventBy(ops, fd, Write, false))
                  && (RDHUP in epoll[fd] <==> EventBy(ops, fd, Close, false))
                  && (ERR in epoll[fd] <==> EventBy(ops, fd, Error, false))
                  && PRI !in epoll[fd] && HUP !in epoll[fd])
  {
    HandlerByHistory(w, ops, fd);
    RegistrationAgrees(w, ops);
  }

  // ---------- Dispatch ----------

  const DISPATCH_ORDER := [Close, Error, Read, Write]

  /** The events that lead to a callback of this kind. */
  predicate Triggers(revents: Mask, slot: Slot)
  {
    match slot
    case Close => HUP in revents && IN !in revents
    case Error => ERR in revents
    case Read => IN in revents || PRI in revents || RDHUP in revents
    case Write => OUT in revents
  }

  /** What happened in a dispatch: the callbacks that ran, in order. */
  datatype Dispatched = Dispatched(w: World, ran: seq<(Slot, CallbackId)>)

  predicate HasCallback(w: World, fd: Fd, slot: Slot)
  {
    fd in w.handlers && slot in w.handlers[fd].callbacks
  }

  /** One part of IOHandler::run; a callback performs the operations its script lists. */
  function InSlot(w: World, fd: Fd, revents: Mask, slot: Slot, scripts: CallbackId -> seq<Op>): Dispatched
  {
    if Triggers(revents, slot) && HasCallback(w, fd, slot) then
      var callback := w.handlers[fd].callbacks[slot];
      Dispatched(Run(w, scripts(callback)), [(slot, callback)])
    else Dispatched(w, [])
  }

  /** The tail of IOHandler::run. */
  function RunSlots(w: World, fd: Fd, revents: Mask, slots: seq<Slot>, scripts: CallbackId -> seq<Op>): Dispatched
    decreases |slots|
  {
    if slots == [] then Dispatched(w, [])
    else
      var now := InSlot(w, fd, revents, slots[0], scripts);
      var rest := RunSlots(now.w, fd, revents, slots[1..], scripts);
      rest.(ran := now.ran + rest.ran)
  }

  function Dispatching(w: World, fd: Fd, revents: Mask, scripts: CallbackId -> seq<Op>): Dispatched
  {
    if fd !in w.handlers || !w.handlers[fd].status.Enabled? then Dispatched(w, [])
    else RunSlots(w, fd, revents, DISPATCH_ORDER, scripts)
  }

  predicate SetsCallback(op: Op, fd: Fd)
  {
    op.SetCallback? && op.fd == fd && op.callback.Some?
  }

  /** The script disables the handler and sets none of its callbacks after that. */
  ghost predicate DisablesForGood(script: seq<Op>, fd: Fd)
  {
    exists k :: 0 <= k < |script| && script[k] == Disable(fd)
                && forall j :: k < j < |script| ==> !SetsCallback(script[j], fd)
  }

  lemma {:induction false} NoCallbacksLeft(w: World, ops: seq<Op>, fd: Fd)
    requires fd in w.handlers && w.handlers[fd].callbacks == map[]
    requires forall j :: 0 <= j < |ops| ==> !SetsCallback(ops[j], fd)
    ensures fd in Run(w, ops).handlers && Run(w, ops).handlers[fd].callbacks == map[]
    decreases |ops|
  {
    if ops != [] {
      assert forall j :: 0 <= j < |ops[1..]| ==> ops[1..][j] == ops[j + 1];
      NoCallbacksLeft(Apply(w, ops[0]), ops[1..], fd);
    }
  }

  lemma {:induction false} DisableClears(w: World, script: seq<Op>, fd: Fd, k: nat)
    requires k < |script| && script[k] == Disable(fd)
    requires forall j :: k < j < |script| ==> !SetsCallback(script[j], fd)
    ensures fd in Run(w, script).handlers && Run(w, script).handlers[fd].callbacks == map[]
    decreases |script|
  {
    if k == 0 {
      assert forall j :: 0 <= j < |script[1..]| ==> script[1..][j] == script[j + 1];
      NoCallbacksLeft(Apply(w, script[0]), script[1..], fd);
    } else {
      assert forall j :: 0 <= j < |script[1..]| ==> script[1..][j] == script[j + 1];
      DisableClears(Apply(w, script[0]), script[1..], fd, k - 1);
    }
  }

  lemma {:induction false} NothingRunsWithoutCallbacks(
    w: World, fd: Fd, revents: Mask, slots: seq<Slot>, scripts: CallbackId -> seq<Op>)
    requires fd in w.handlers && w.handlers[fd].callbacks == map[]
    ensures RunSlots(w, fd, revents, slots, scripts) == Dispatched(w, [])
  {
    if slots != [] {
      NothingRunsWithoutCallbacks(w, fd, revents, slots[1..], scripts);
    }
  }

  /** Main result: a callback that disables its handler for good is the last one of the dispatch. */
  lemma {:induction false} DisableEndsDispatch(w: World, fd: Fd, revents: Mask, slots: seq<Slot>,
                                               scripts: CallbackId -> seq<Op>, i: nat)
    requires i < |RunSlots(w, fd, revents, slots, scripts).ran|
    requires DisablesForGood(scripts(RunSlots(w, fd, revents, slots, scripts).ran[i].1), fd)
    ensures i == |RunSlots(w, fd, revents, slots, scripts).ran| - 1
    decreases |slots|
  {
    if Triggers(revents, slots[0]) && HasCallback(w, fd, slots[0]) {
      var script := scripts(w.handlers[fd].callbacks[slots[0]]);
      var m := Run(w, script);
      if i == 0 {
        var k :| 0 <= k < |script| && script[k] == Disable(fd)
                 && forall j :: k < j < |script| ==> !SetsCallback(script[j], fd);
        DisableClears(w, script, fd, k);
        NothingRunsWithoutCallbacks(m, fd, revents, slots[1..], scripts);
      } else {
        DisableEndsDispatch(m, fd, revents, slots[1..], scripts, i - 1);
      }
    } else {
      DisableEndsDispatch(w, fd, revents, slots[1..], scripts, i);
    }
  }

  /** A dispatch keeps the agreement, whatever its callbacks do. */
  lemma {:induction false} DispatchKeepsAgreement(
    w: World, fd: Fd, revents: Mask, slots: seq<Slot>, scripts: CallbackId -> seq<Op>)
    requires Agreement(w) && !w.quit
    ensures Agreement(RunSlots(w, fd, revents, slots, scripts).w) && !RunSlots(w, fd, revents, slots, scripts).w.quit
    decreases |slots|
  {
    if slots != [] {
      var m := w;
      if Triggers(revents, slots[0]) && HasCallback(w, fd, slots[0]) {
        var script := scripts(w.handlers[fd].callbacks[slots[0]]);
        RegistrationAgrees(w, script);
        m := Run(w, script);
      }
      DispatchKeepsAgreement(m, fd, revents, slots[1..], scripts);
    }
  }

  // ---------- The handler object ----------

  /** The part of the loop that handlers see: its epoll set and its quit flag. */
  class Loop {
    var epoll: map<Fd, Mask>
    var quit: bool
    ghost var calls: seq<Ctl>

    constructor ()
      ensures epoll == map[] && !quit && calls == []
    {
      epoll, quit, calls := map[], false, [];
    }

    method EpollCtl(call: Ctl)
      modifies this`epoll, this`calls
      ensures epoll == Control(old(epoll), call) && calls == old(calls) + [call]
    {
      match call {
        case Add(fd, mask) => if fd !in epoll { epoll := epoll[fd := mask]; }
        case Modify(fd, mask) => if fd in epoll { epoll := epoll[fd := mask]; }
        case Remove(fd) => epoll := epoll - {fd};
      }
      calls := calls + [call];
    }
  }

  class IOHandler {
    const loop: Loop
    const fd: Fd
    var status: Status
    var events: Mask
    var callbacks: map<Slot, CallbackId>

    /** The world as this handler and the loop see it. */
    ghost function View(): World
      reads this, loop
    {
      World(map[fd := Handler(status, events, callbacks)], loop.epoll, loop.quit, loop.calls)
    }

    /** The agreement for this handler. */
    ghost predicate Registered()
      reads this, loop
    {
      if status.Enabled? then fd in loop.epoll && loop.epoll[fd] == events else fd !in loop.epoll
    }

    constructor (loop: Loop, fd: Fd)
      ensures this.loop == loop && this.fd == fd
      ensures View().handlers[fd] == FRESH_HANDLER
    {
      this.loop := loop;
      this.fd := fd;
      status, events, callbacks := Created, {}, map[];
    }

    method UpdateInLoop(next: Status)
      modifies this, loop`epoll, loop`calls
      ensures View() == AfterUpdateInLoop(old(View()), fd, old(View()).handlers[fd], next)
    {
      var addNew := (status.Created? || status.Disabled?) && next.Enabled?;
      status := next;
      if addNew {
        loop.EpollCtl(Add(fd, events));
      } else if status.Enabled? {
        loop.EpollCtl(Modify(fd, events));
      } else {
        loop.EpollCtl(Remove(fd));
      }
      if status.Disabled? {
        callbacks := map[];
      }
    }

    method Update(next: Status)
      modifies this, loop`epoll, loop`calls
      ensures View() == AfterUpdate(old(View()), fd, old(View()).handlers[fd], next)
    {
      if status.Disabled? && next.Disabled? {
        return;
      }
      if status.Created? && next.Disabled? {
        status := Disabled;
        return;
      }
      UpdateInLoop(next);
    }

    method Enable()
      modifies this, loop`epoll, loop`calls
      ensures View() == Apply(old(View()), Op.Enable(fd))
      ensures status == Enabled && events == old(events) && callbacks == old(callbacks)
      ensures old(Registered()) ==> fd in loop.epoll && loop.epoll[fd] == events
    {
      Update(Enabled);
      assert View().handlers[fd] == Handler(status, events, callbacks);
    }

    method Disable()
      modifies this, loop`epoll, loop`calls
      ensures View() == Apply(old(View()), Op.Disable(fd))
      ensures status == Disabled && events == old(events) && callbacks == map[]
      ensures old(Registered()) && !loop.quit ==> fd !in loop.epoll
    {
      callbacks := map[];
      if loop.quit {
        status := Disabled;
      } else {
        Update(Disabled);
      }
    }

    /** setReadEvent, setWriteEvent, setCloseEvent and setErrorEvent. */
    method SetEvent(slot: Slot, on: bool)
      modifies this, loop`epoll, loop`calls
      ensures View() == Apply(old(View()), Op.SetEvent(fd, slot, on))
    {
      if on {
        events := events + {BitOf(slot)};
      } else {
        events := events - {BitOf(slot)};
      }
      if status.Enabled? {
        UpdateInLoop(Enabled);
      }
    }

    /** setReadCallback and its three siblings: a callback switches its event on, clearing it off. */
    method SetCallback(slot: Slot, callback: Option<CallbackId>)
      modifies this, loop`epoll, loop`calls
      ensures View() == Apply(old(View()), Op.SetCallback(fd, slot, callback))
    {
      callbacks := if callback.Some? then callbacks[slot := callback.value] else callbacks - {slot};
      SetEvent(slot, callback.Some?);
    }

    method Perform(op: Op)
      requires op.fd == fd
      modifies this, loop`epoll, loop`calls
      ensures View() == Apply(old(View()), op)
    {
      match op
      case Enable(_) => Enable();
      case Disable(_) => Disable();
      case SetEvent(_, slot, on) => SetEvent(slot, on);
      case SetCallback(_, slot, callback) => SetCallback(slot, callback);
    }
  }

  /** What one handler object sees of an operation is what happens in the world of all handlers. */
  lemma OperationsAreLocal(w: World, op: Op)
    requires op.fd in w.handlers
    ensures var own := Apply(w.(handlers := map[op.fd := w.handlers[op.fd]]), op);
            var all := Apply(w, op);
            && op.fd in own.handlers && all.handlers == w.handlers[op.fd := own.handlers[op.fd]]
            && all.epoll == own.epoll && all.calls == own.calls && all.quit == own.quit
  {
  }

  // ---------- All handlers of a loop ----------

  class Handlers {
    const loop: Loop
    var handlers: map<Fd, IOHandler>

    ghost predicate Represents(w: World)
      reads this, loop, handlers.Values
    {
      && handlers.Keys == w.handlers.Keys
      && (forall fd :: fd in handlers ==>
            var h := handlers[fd];
            h.fd == fd && h.loop == loop && Handler(h.status, h.events, h.callbacks) == w.handlers[fd])
      && loop.epoll == w.epoll && loop.quit == w.quit && loop.calls == w.calls
    }

    constructor (loop: Loop)
      ensures this.loop == loop && handlers == map[]
    {
      this.loop := loop;
      handlers := map[];
    }

    /** EventLoop::handleIO: a descriptor without a handler gets a new one. */
    method HandleIO(fd: Fd, ghost w: World)
      requires Represents(w)
      modifies this
      ensures Represents(if fd in w.handlers then w else w.(handlers := w.handlers[fd := FRESH_HANDLER]))
      ensures fd in handlers && fresh(handlers.Values - old(handlers.Values))
    {
      if fd !in handlers {
        var handler := new IOHandler(loop, fd);
        handlers := handlers[fd := handler];
      }
    }

    method PerformOn(op: Op, ghost w: World)
      requires Represents(w) && op.fd in handlers
      modifies loop`epoll, loop`calls, handlers.Values
      ensures Represents(Apply(w, op))
    {
      OperationsAreLocal(w, op);
      assert handlers[op.fd].View() == w.(handlers := map[op.fd := w.handlers[op.fd]]);
      handlers[op.fd].Perform(op);
    }

    /** One operation on the handler of op.fd. */
    method Perform(op: Op, ghost w: World)
      requires Represents(w)
      modifies this, loop`epoll, loop`calls, handlers.Values
      ensures Represents(Apply(w, op))
      ensures fresh(handlers.Values - old(handlers.Values))
    {
      HandleIO(op.fd, w);
      if op.fd !in w.handlers {
        NewHandlerIsFresh(w, op);
      }
      PerformOn(op, if op.fd in w.handlers then w else w.(handlers := w.handlers[op.fd := FRESH_HANDLER]));
    }

    /** The operations of one callback, in order. */
    method Invoke(script: seq<Op>, ghost w: World)
      requires Represents(w)
      modifies this, loop`epoll, loop`calls, handlers.Values
      ensures Represents(Run(w, script))
      ensures fresh(handlers.Values - old(handlers.Values))
    {
      ghost var now := w;
      for i := 0 to |script|
        invariant Represents(now) && Run(now, script[i..]) == Run(w, script)
        invariant fresh(handlers.Values - old(handlers.Values))
      {
        assert script[i..][1..] == script[i + 1..];
        Perform(script[i], now);
        now := Apply(now, script[i]);
      }
    }

    /** One of the four parts of IOHandler::run. */
    method RunSlot(fd: Fd, revents: Mask, slot: Slot, scripts: CallbackId -> seq<Op>, ghost w: World)
      returns (ran: seq<(Slot, CallbackId)>, ghost w': World)
      requires Represents(w) && fd in w.handlers
      modifies this, loop`epoll, loop`calls, handlers.Values
      ensures Represents(w') && fd in w'.handlers
      ensures Dispatched(w', ran) == InSlot(w, fd, revents, slot, scripts)
      ensures fresh(handlers.Values - old(handlers.Values))
    {
      ran, w' := [], w;
      if Triggers(revents, slot) && slot in handlers[fd].callbacks {
        var callback := handlers[fd].callbacks[slot];
        Invoke(scripts(callback), w);
        w' := Run(w, scripts(callback));
        HandlersStay(w, scripts(callback));
        ran := [(slot, callback)];
      }
    }

    method RunTwoSlots(fd: Fd, revents: Mask, one: Slot, two: Slot, scripts: CallbackId -> seq<Op>, ghost w: World)
      returns (ran: seq<(Slot, CallbackId)>, ghost w': World)
      requires Represents(w) && fd in w.handlers
      modifies this, loop`epoll, loop`calls, handlers.Values
      ensures Represents(w') && fd in w'.handlers
      ensures Dispatched(w', ran) == InTwoSlots(w, fd, revents, one, two, scripts)
      ensures fresh(handlers.Values - old(handlers.Values))
    {
      var more;
      ghost var m;
      ran, m := RunSlot(fd, revents, one, scripts, w);
      more, w' := RunSlot(fd, revents, two, scripts, m);
      ran := ran + more;
    }

    /** IOHandler::run, for callbacks that work on any handlers: close, error, read and write. */
    method Dispatch(fd: Fd, revents: Mask, scripts: CallbackId -> seq<Op>, ghost w: World)
      returns (ran: seq<(Slot, CallbackId)>, ghost w': World)
      requires Represents(w) && fd in w.handlers
      modifies this, loop`epoll, loop`calls, handlers.Values
      ensures Represents(w') && Dispatched(w', ran) == Dispatching(w, fd, revents, scripts)
      ensures fresh(handlers.Values - old(handlers.Values))
    {
      DispatchInParts(w, fd, revents, scripts);
      if !handlers[fd].status.Enabled? {
        return [], w;
      }
      var more;
      ghost var m;
      ran, m := RunTwoSlots(fd, revents, Close, Error, scripts, w);
      more, w' := RunTwoSlots(fd, revents, Read, Write, scripts, m);
      ran := ran + more;
    }
  }

  function InTwoSlots(w: World, fd: Fd, revents: Mask, one: Slot, two: Slot, scripts: CallbackId -> seq<Op>): Dispatched
  {
    var first := InSlot(w, fd, revents, one, scripts);
    var second := InSlot(first.w, fd, revents, two, scripts);
    Dispatched(second.w, first.ran + second.ran)
  }

  lemma FirstSlot(w: World, fd: Fd, revents: Mask, slot: Slot, more: seq<Slot>, scripts: CallbackId -> seq<Op>)
    ensures var now := InSlot(w, fd, revents, slot, scripts);
            var rest := RunSlots(now.w, fd, revents, more, scripts);
            RunSlots(w, fd, revents, [slot] + more, scripts) == Dispatched(rest.w, now.ran + rest.ran)
  {
    assert ([slot] + more)[1..] == more;
  }

  lemma LastTwoSlots(w: World, fd: Fd, revents: Mask, one: Slot, two: Slot, scripts: CallbackId -> seq<Op>)
    ensures RunSlots(w, fd, revents, [one, two], scripts) == InTwoSlots(w, fd, revents, one, two, scripts)
  {
    var first := InSlot(w, fd, revents, one, scripts);
    var second := InSlot(first.w, fd, revents, two, scripts);
    FirstSlot(w, fd, revents, one, [two], scripts);
    FirstSlot(first.w, fd, revents, two, [], scripts);
    assert [one] + [two] == [one, two] && [two] + [] == [two];
    assert second.ran + [] == second.ran;
  }

  lemma DispatchInParts(w: World, fd: Fd, revents: Mask, scripts: CallbackId -> seq<Op>)
    requires fd in w.handlers
    ensures var first := InTwoSlots(w, fd, revents, Close, Error, scripts);
            var second := InTwoSlots(first.w, fd, revents, Read, Write, scripts);
            Dispatching(w, fd, revents, scripts) ==
              if w.handlers[fd].status.Enabled? then Dispatched(second.w, first.ran + second.ran)
              else Dispatched(w, [])
  {
    var closed := InSlot(w, fd, revents, Close, scripts);
    var failed := InSlot(closed.w, fd, revents, Error, scripts);
    var second := InTwoSlots(failed.w, fd, revents, Read, Write, scripts);
    FirstSlot(w, fd, revents, Close, [Error, Read, Write], scripts);
    FirstSlot(closed.w, fd, revents, Error, [Read, Write], scripts);
    LastTwoSlots(failed.w, fd, revents, Read, Write, scripts);
    assert [Close] + [Error, Read, Write] == DISPATCH_ORDER;
    assert [Error] + [Read, Write] == [Error, Read, Write];
    assert closed.ran + (failed.ran + second.ran) == closed.ran + failed.ran + second.ran;
  }

  lemma {:induction false} HandlersStay(w: World, ops: seq<Op>)
    ensures w.handlers.Keys <= Run(w, ops).handlers.Keys
    decreases |ops|
  {
    if ops != [] {
      HandlersStay(Apply(w, ops[0]), ops[1..]);
    }
  }

  lemma NewHandlerIsFresh(w: World, op: Op)
    requires op.fd !in w.handlers
    ensures Apply(w, op) == Apply(w.(handlers := w.handlers[op.fd := FRESH_HANDLER]), op)
  {
  }

  // ---------- Which callbacks run ----------

  /** What the script does leaves the callbacks of fd alone. */
  ghost predicate LeavesCallbacks(script: seq<Op>, fd: Fd)
  {
    forall op :: op in script && op.fd == fd ==> !op.Disable? && !op.SetCallback?
  }

  lemma {:induction false} CallbacksStay(w: World, ops: seq<Op>, fd: Fd)
    requires fd in w.handlers && LeavesCallbacks(ops, fd)
    ensures fd in Run(w, ops).handlers && Run(w, ops).handlers[fd].callbacks == w.handlers[fd].callbacks
    decreases |ops|
  {
    if ops != [] {
      assert ops[0] in ops;
      CallbacksStay(Apply(w, ops[0]), ops[1..], fd);
    }
  }

  /** The callback of a slot, if its condition holds and it is set. */
  function CalledIf(condition: bool, callbacks: map<Slot, CallbackId>, slot: Slot): seq<(Slot, CallbackId)>
  {
    if condition && slot in callbacks then [(slot, callbacks[slot])] else []
  }

  lemma SlotCalls(w: World, fd: Fd, revents: Mask, slot: Slot, scripts: CallbackId -> seq<Op>)
    requires fd in w.handlers
    requires forall s :: s in w.handlers[fd].callbacks ==> LeavesCallbacks(scripts(w.handlers[fd].callbacks[s]), fd)
    ensures var now := InSlot(w, fd, revents, slot, scripts);
            && fd in now.w.handlers && now.w.handlers[fd].callbacks == w.handlers[fd].callbacks
            && now.ran == CalledIf(Triggers(revents, slot), w.handlers[fd].callbacks, slot)
  {
    if Triggers(revents, slot) && HasCallback(w, fd, slot) {
      CallbacksStay(w, scripts(w.handlers[fd].callbacks[slot]), fd);
    }
  }

  /**
   Main result: an enabled handler whose callbacks leave its own callbacks alone runs, in this order,
   close on a hang-up without input, error on an error, read on input, urgent input or a closed peer,
   and write when there is room.
   */
  lemma RunsTheTriggered(w: World, fd: Fd, revents: Mask, scripts: CallbackId -> seq<Op>)
    requires fd in w.handlers && w.handlers[fd].status.Enabled?
    requires forall s :: s in w.handlers[fd].callbacks ==> LeavesCallbacks(scripts(w.handlers[fd].callbacks[s]), fd)
    ensures var callbacks := w.handlers[fd].callbacks;
            Dispatching(w, fd, revents, scripts).ran ==
              CalledIf(HUP in revents && IN !in revents, callbacks, Close)
              + CalledIf(ERR in revents, callbacks, Error)
              + CalledIf(IN in revents || PRI in revents || RDHUP in revents, callbacks, Read)
              + CalledIf(OUT in revents, callbacks, Write)
  {
    DispatchInParts(w, fd, revents, scripts);
    var closed := InSlot(w, fd, revents, Close, scripts);
    var failed := InSlot(closed.w, fd, revents, Error, scripts);
    var read := InSlot(failed.w, fd, revents, Read, scripts);
    var written := InSlot(read.w, fd, revents, Write, scripts);
    SlotCalls(w, fd, revents, Close, scripts);
    SlotCalls(closed.w, fd, revents, Error, scripts);
    SlotCalls(failed.w, fd, revents, Read, scripts);
    SlotCalls(read.w, fd, revents, Write, scripts);
    assert (closed.ran + failed.ran) + (read.ran + written.ran) == closed.ran + failed.ran + read.ran + written.ran;
  }

  /** Only an enabled handler runs callbacks. */
  lemma DisabledRunsNothing(w: World, fd: Fd, revents: Mask, scripts: CallbackId -> seq<Op>)
    requires fd in w.handlers && !w.handlers[fd].status.Enabled?
    ensures Dispatching(w, fd, revents, scripts) == Dispatched(w, [])
  {
  }
}
