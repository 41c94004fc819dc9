/**
 The write path of src/net/TCPConnection.cpp, on the loop thread and before the connection is
 closed. What the kernel does with a call of ::write is a parameter, and so is what the high-water
 callback writes to its own connection, which the source lets it do before the message that fired
 it is buffered.
 */
module TCPConnection {

  import B = Buffer
  import H = IOHandler

  /** Wrote(n) is any count up to the length; Fault is EPIPE or ECONNRESET, which aborts a direct write. */
  datatype Outcome = Wrote(n: nat) | WouldBlock | OtherError | Fault

  /**
   The writes of a high-water callback, one after the other; inner is what the callback writes if
   such a write fires it again.
   */
  datatype Script = Nothing | Then(text: string, outcome: Outcome, inner: Script, next: Script)

  /** A callback invoked or queued; depth counts the high-water callbacks it happens inside of. */
  datatype Event = HighWater(depth: nat) | WriteComplete(depth: nat, allTaken: bool)

  const HIGH_WATER_MARK: nat := 64 * 1024 * 1024
  const LARGE: nat := 1024 * 1024

  /**
   writing, the mask of the handler and the marks are fields of the connection; highWater and
   writeComplete say which callbacks are set. The rest is history: the bytes handed to write so
   far, those the kernel has taken, the callbacks, and order, which gives for every byte taken or
   buffered its position in accepted.
   */
  datatype State = State(
    buffer: B.View, writing: bool, events: H.Mask, highWaterMark: nat, highWater: bool, writeComplete: bool,
    aborted: bool, accepted: string, taken: string, order: seq<nat>, log: seq<Event>)

  function Initial(events: H.Mask): State
  {
    State(B.Empty(B.INITIAL_SIZE), false, events + {H.IN, H.RDHUP, H.ERR} - {H.OUT}, HIGH_WATER_MARK, false, false,
          false, "", "", [], [])
  }

  function Pending(s: State): nat { |s.buffer.readable| }

  /** The positions from a up to b. */
  function Range(a: nat, b: nat): (r: seq<nat>)
    ensures a <= b ==> |r| == b - a
  {
    if a <= b then seq(b - a, (i: nat) => a + i) else []
  }

  // ---------- write ----------

  /** Nothing is queued, so the message goes to the kernel at once. */
  predicate Direct(s: State) { !s.writing && Pending(s) == 0 }

  predicate Aborts(s: State, outcome: Outcome) { Direct(s) && outcome.Fault? }

  predicate LegalOutcome(text: string, outcome: Outcome)
  {
    outcome.Wrote? ==> outcome.n <= |text|
  }

  predicate LegalScript(p: Script)
  {
    p.Then? ==> LegalOutcome(p.text, p.outcome) && LegalScript(p.inner) && LegalScript(p.next)
  }

  function TakenAtOnce(s: State, outcome: Outcome): nat
  {
    if Direct(s) && outcome.Wrote? then outcome.n else 0
  }

  predicate CompletesAtOnce(s: State, text: string, outcome: Outcome)
  {
    Direct(s) && outcome == Wrote(|text|) && s.writeComplete
  }

  /** The message is accepted, and the kernel takes what it can of it. */
  function TakeAtOnce(s: State, text: string, outcome: Outcome, depth: nat): State
    requires LegalOutcome(text, outcome)
  {
    var n := TakenAtOnce(s, outcome);
    var at := |s.accepted|;
    var now := s.(accepted := s.accepted + text, taken := s.taken + text[..n], order := s.order + Range(at, at + n));
    if CompletesAtOnce(s, text, outcome)
    then now.(log := s.log + [WriteComplete(depth, |now.taken| == |now.accepted|)]) else now
  }

  /** What is left of a message, accepted at the position at, is buffered. */
  function AppendRest(s: State, rest: string, at: nat): State
  {
    s.(buffer := B.Append(s.buffer, rest), writing := true,
       events := if s.writing then s.events else s.events + {H.OUT},
       order := s.order + Range(at, at + |rest|))
  }

  predicate FiresHighWater(s: State, text: string, outcome: Outcome)
    requires LegalOutcome(text, outcome)
  {
    var remaining := |text| - TakenAtOnce(s, outcome);
    && !Aborts(s, outcome) && remaining > 0
    && Pending(s) + remaining >= s.highWaterMark && Pending(s) < s.highWaterMark && s.highWater
  }

  function Called(s: State, event: Event): State
  {
    s.(log := s.log + [event])
  }

  /** writeInLoop up to the append; inner is what the high-water callback writes if it is called. */
  function BeforeAppend(s: State, text: string, outcome: Outcome, inner: Script, depth: nat): State
    requires LegalOutcome(text, outcome) && LegalScript(inner)
    decreases inner, 1
  {
    var now := TakeAtOnce(s, text, outcome, depth);
    if FiresHighWater(s, text, outcome)
    then RunScript(Called(now, HighWater(depth)), inner, depth + 1) else now
  }

  /** writeInLoop; a direct write that meets a fault aborts, also inside a callback. */
  function Written(s: State, text: string, outcome: Outcome, inner: Script, depth: nat): State
    requires LegalOutcome(text, outcome) && LegalScript(inner)
    decreases inner, 2
  {
    if Aborts(s, outcome) then s.(aborted := true)
    else
      var n := TakenAtOnce(s, outcome);
      var after := BeforeAppend(s, text, outcome, inner, depth);
      if n == |text| || after.aborted then after else AppendRest(after, text[n..], |s.accepted| + n)
  }

  function RunScript(s: State, p: Script, depth: nat): State
    requires LegalScript(p)
    decreases p, 0
  {
    if p.Nothing? || s.aborted then s
    else RunScript(Written(s, p.text, p.outcome, p.inner, depth), p.next, depth)
  }

  // ---------- handleWrite ----------

  predicate LegalEvent(s: State, outcome: Outcome, capacity: nat)
  {
    && (s.writing && outcome.Wrote? ==> outcome.n <= Pending(s))
    && capacity >= s.buffer.Size() >= B.CHEAP_PREPEND
  }

  function AfterEvent(s: State, outcome: Outcome, capacity: nat): State
    requires LegalEvent(s, outcome, capacity)
  {
    if !s.writing || !outcome.Wrote? || outcome.n == 0 then s
    else
      var buffer := B.Retrieve(s.buffer, outcome.n);
      var now := s.(buffer := buffer, taken := s.taken + s.buffer.readable[..outcome.n]);
      if buffer.readable != "" then now
      else now.(events := now.events - {H.OUT}, writing := false,
                buffer := if capacity > LARGE then B.Shrink(buffer, 0) else buffer,
                log := if s.writeComplete then s.log + [WriteComplete(0, |now.taken| == |s.accepted|)] else s.log)
  }

  // ---------- Runs ----------

  datatype Op =
    | Send(text: string, outcome: Outcome, script: Script)
    | WritableEvent(outcome: Outcome, capacity: nat)
    | SetHighWater(mark: nat, isSet: bool)
    | SetWriteComplete(isSet: bool)

  predicate Legal(s: State, op: Op)
  {
    && !s.aborted
    && match op
       case Send(text, outcome, script) => LegalOutcome(text, outcome) && LegalScript(script)
       case WritableEvent(outcome, capacity) => LegalEvent(s, outcome, capacity)
       case _ => true
  }

  function Apply(s: State, op: Op): State
    requires Legal(s, op)
  {
    match op
    case Send(text, outcome, script) => Written(s, text, outcome, script, 0)
    case WritableEvent(outcome, capacity) => AfterEvent(s, outcome, capacity)
    case SetHighWater(mark, isSet) => s.(highWaterMark := mark, highWater := isSet)
    case SetWriteComplete(isSet) => s.(writeComplete := isSet)
  }

  predicate Fires(s: State, op: Op)
    requires Legal(s, op)
  {
    op.Send? && FiresHighWater(s, op.text, op.outcome)
  }

  ghost predicate Execution(ss: seq<State>, ops: seq<Op>, events: H.Mask)
  {
    && |ss| == |ops| + 1 && ss[0] == Initial(events)
    && forall i {:trigger ops[i]} :: 0 <= i < |ops| ==> Legal(ss[i], ops[i]) && ss[i + 1] == Apply(ss[i], ops[i])
  }

  // ---------- Flags, marks and room ----------

  predicate FlagsAgree(s: State)
  {
    && (s.writing <==> s.buffer.readable != "")
    && (s.writing <==> H.OUT in s.events)
  }

  /** What a write, with all that its callbacks write, leaves alone or only lets grow. */
  predicate Grows(s: State, s': State)
  {
    && s'.highWaterMark == s.highWaterMark && s'.highWater == s.highWater && s'.writeComplete == s.writeComplete
    && Pending(s) <= Pending(s') && s.accepted <= s'.accepted && s.order <= s'.order && s.log <= s'.log
    && s.buffer.Size() <= s'.buffer.Size()
  }

  lemma GrowsChain(a: State, b: State, c: State)
    requires Grows(a, b) && Grows(b, c)
    ensures Grows(a, c)
  {
  }

  lemma RestGrows(s: State, rest: string, at: nat)
    requires FlagsAgree(s) && rest != ""
    ensures FlagsAgree(AppendRest(s, rest, at)) && Grows(s, AppendRest(s, rest, at))
    ensures Pending(AppendRest(s, rest, at)) == Pending(s) + |rest|
  {
  }

  lemma TakeGrows(s: State, text: string, outcome: Outcome, depth: nat)
    requires FlagsAgree(s) && LegalOutcome(text, outcome)
    ensures FlagsAgree(TakeAtOnce(s, text, outcome, depth)) && Grows(s, TakeAtOnce(s, text, outcome, depth))
  {
  }

  lemma {:induction false} CallbackGrows(s: State, text: string, outcome: Outcome, inner: Script, depth: nat)
    requires FlagsAgree(s) && LegalOutcome(text, outcome) && LegalScript(inner)
    ensures FlagsAgree(BeforeAppend(s, text, outcome, inner, depth))
    ensures Grows(s, BeforeAppend(s, text, outcome, inner, depth))
    decreases inner, 1
  {
    TakeGrows(s, text, outcome, depth);
    if FiresHighWater(s, text, outcome) {
      var called := Called(TakeAtOnce(s, text, outcome, depth), HighWater(depth));
      ScriptGrows(called, inner, depth + 1);
      GrowsChain(s, called, RunScript(called, inner, depth + 1));
    }
  }

  lemma {:induction false} WriteGrows(s: State, text: string, outcome: Outcome, inner: Script, depth: nat)
    requires FlagsAgree(s) && LegalOutcome(text, outcome) && LegalScript(inner)
    ensures FlagsAgree(Written(s, text, outcome, inner, depth)) && Grows(s, Written(s, text, outcome, inner, depth))
    decreases inner, 2
  {
    if !Aborts(s, outcome) {
      CallbackGrows(s, text, outcome, inner, depth);
      var n, after := TakenAtOnce(s, outcome), BeforeAppend(s, text, outcome, inner, depth);
      if n < |text| && !after.aborted {
        RestGrows(after, text[n..], |s.accepted| + n);
        GrowsChain(s, after, AppendRest(after, text[n..], |s.accepted| + n));
      }
    }
  }

  lemma {:induction false} ScriptGrows(s: State, p: Script, depth: nat)
    requires FlagsAgree(s) && LegalScript(p)
    ensures FlagsAgree(RunScript(s, p, depth)) && Grows(s, RunScript(s, p, depth))
    decreases p, 0
  {
    if p.Then? && !s.aborted {
      var m := Written(s, p.text, p.outcome, p.inner, depth);
      WriteGrows(s, p.text, p.outcome, p.inner, depth);
      ScriptGrows(m, p.next, depth);
      GrowsChain(s, m, RunScript(m, p.next, depth));
    }
  }

  /** The state in which the high-water callback of a write begins. */
  function AtCallback(s: State, text: string, outcome: Outcome, depth: nat): State
    requires LegalOutcome(text, outcome)
  {
    Called(TakeAtOnce(s, text, outcome, depth), HighWater(depth))
  }

  lemma WrittenIs(s: State, text: string, outcome: Outcome, inner: Script, depth: nat)
    requires LegalOutcome(text, outcome) && LegalScript(inner) && !Aborts(s, outcome)
    ensures var n, after := TakenAtOnce(s, outcome), BeforeAppend(s, text, outcome, inner, depth);
            Written(s, text, outcome, inner, depth) ==
              if n == |text| || after.aborted then after else AppendRest(after, text[n..], |s.accepted| + n)
  {
  }

  // ---------- What the kernel takes, told by what ::write returns ----------

  /**
   With nothing pending the kernel is offered the message, and the n bytes it reports, no more,
   join those taken before anything else happens; otherwise none do.
   */
  lemma DirectWriteTakes(s: State, text: string, outcome: Outcome, depth: nat)
    requires LegalOutcome(text, outcome)
    ensures var now := TakeAtOnce(s, text, outcome, depth);
            && now.accepted == s.accepted + text && now.buffer == s.buffer && now.writing == s.writing
            && (!s.writing && s.buffer.readable == "" && outcome.Wrote? ==> now.taken == s.taken + text[..outcome.n])
            && (s.writing || s.buffer.readable != "" || !outcome.Wrote? ==> now.taken == s.taken)
  {
    assert s.taken + text[..0] == s.taken;
  }

  /** A message that calls no high-water callback: what the kernel does not take at once is buffered. */
  lemma PlainWrite(s: State, text: string, outcome: Outcome, inner: Script, depth: nat)
    requires FlagsAgree(s) && LegalOutcome(text, outcome) && LegalScript(inner)
    requires !s.aborted && !FiresHighWater(s, text, outcome)
    ensures var s' := Written(s, text, outcome, inner, depth);
            && (s.buffer.readable == "" && outcome.Fault? ==> s' == s.(aborted := true))
            && (s.buffer.readable == "" && outcome.Wrote? ==>
                  s'.taken == s.taken + text[..outcome.n] && s'.buffer.readable == text[outcome.n..] && !s'.aborted)
            && (s.buffer.readable == "" && (outcome.WouldBlock? || outcome.OtherError?) ==>
                  s'.taken == s.taken && s'.buffer.readable == text && !s'.aborted)
            && (s.buffer.readable != "" ==>
                  s'.taken == s.taken && s'.buffer.readable == s.buffer.readable + text && !s'.aborted)
  {
    if s.buffer.readable != "" || !outcome.Fault? {
      WrittenIs(s, text, outcome, inner, depth);
      DirectWriteTakes(s, text, outcome, depth);
      assert "" + text == text && text[0..] == text && s.buffer.readable + "" == s.buffer.readable;
    }
  }

  /** Some write of the callback meets EPIPE or ECONNRESET. */
  predicate MeetsFault(p: Script)
  {
    p.Then? && (p.outcome.Fault? || MeetsFault(p.inner) || MeetsFault(p.next))
  }

  lemma {:induction false} WriteWithoutFault(s: State, text: string, outcome: Outcome, inner: Script, depth: nat)
    requires LegalOutcome(text, outcome) && LegalScript(inner) && !s.aborted && !outcome.Fault? && !MeetsFault(inner)
    ensures !Written(s, text, outcome, inner, depth).aborted
    decreases inner, 1
  {
    if FiresHighWater(s, text, outcome) {
      ScriptWithoutFault(AtCallback(s, text, outcome, depth), inner, depth + 1);
    }
    WrittenIs(s, text, outcome, inner, depth);
  }

  lemma {:induction false} ScriptWithoutFault(s: State, p: Script, depth: nat)
    requires LegalScript(p) && !s.aborted && !MeetsFault(p)
    ensures !RunScript(s, p, depth).aborted
    decreases p, 0
  {
    if p.Then? {
      WriteWithoutFault(s, p.text, p.outcome, p.inner, depth);
      ScriptWithoutFault(Written(s, p.text, p.outcome, p.inner, depth), p.next, depth);
    }
  }

  /** Nothing aborts but a message, or a write of a callback it calls, that meets EPIPE or ECONNRESET. */
  lemma AbortsOnlyOnFault(s: State, op: Op)
    requires Legal(s, op) && Apply(s, op).aborted
    ensures op.Send? && (op.outcome.Fault? || MeetsFault(op.script))
  {
    if op.Send? && !op.outcome.Fault? && !MeetsFault(op.script) {
      WriteWithoutFault(s, op.text, op.outcome, op.script, 0);
    }
  }

  /**
   A writable event moves the n bytes that ::write reports from the front of the buffer to the
   kernel, on a partial count as on a full one, and nothing on an error. The event that empties it
   ends the waiting for room, and brings a large buffer back to its first size.
   */
  lemma EventTakes(s: State, outcome: Outcome, capacity: nat)
    requires LegalEvent(s, outcome, capacity)
    ensures var s' := AfterEvent(s, outcome, capacity);
            && s'.accepted == s.accepted && s'.aborted == s.aborted
            && (s.writing && outcome.Wrote? ==>
                  && s'.taken == s.taken + s.buffer.readable[..outcome.n]
                  && s'.buffer.readable == s.buffer.readable[outcome.n..]
                  && (outcome.n > 0 && s'.buffer.readable == "" ==>
                        && !s'.writing && H.OUT !in s'.events
                        && s'.buffer.Size() == if capacity > 1048576 then 1032 else s.buffer.Size()))
            && (!s.writing || !outcome.Wrote? ==> s' == s)
  {
    assert s.taken + s.buffer.readable[..0] == s.taken;
  }

  /** The count that ::write returns for a message, if it is called for it at all. */
  function Returned(s: State, outcome: Outcome): nat
  {
    if !s.writing && s.buffer.readable == "" && outcome.Wrote? then outcome.n else 0
  }

  /** The counts of all calls of ::write made by a message and by the callbacks inside it. */
  function ReturnedIn(s: State, text: string, outcome: Outcome, inner: Script, depth: nat): nat
    requires LegalOutcome(text, outcome) && LegalScript(inner)
    decreases inner, 1
  {
    Returned(s, outcome) +
    if FiresHighWater(s, text, outcome) then ReturnedByScript(AtCallback(s, text, outcome, depth), inner, depth + 1)
    else 0
  }

  function ReturnedByScript(s: State, p: Script, depth: nat): nat
    requires LegalScript(p)
    decreases p, 0
  {
    if p.Nothing? || s.aborted then 0
    else ReturnedIn(s, p.text, p.outcome, p.inner, depth)
         + ReturnedByScript(Written(s, p.text, p.outcome, p.inner, depth), p.next, depth)
  }

  lemma {:induction false} WriteCounts(s: State, text: string, outcome: Outcome, inner: Script, depth: nat)
    requires LegalOutcome(text, outcome) && LegalScript(inner)
    ensures |Written(s, text, outcome, inner, depth).taken| == |s.taken| + ReturnedIn(s, text, outcome, inner, depth)
    decreases inner, 1
  {
    DirectWriteTakes(s, text, outcome, depth);
    if FiresHighWater(s, text, outcome) {
      ScriptCounts(AtCallback(s, text, outcome, depth), inner, depth + 1);
    }
    if !Aborts(s, outcome) {
      WrittenIs(s, text, outcome, inner, depth);
    }
  }

  lemma {:induction false} ScriptCounts(s: State, p: Script, depth: nat)
    requires LegalScript(p)
    ensures |RunScript(s, p, depth).taken| == |s.taken| + ReturnedByScript(s, p, depth)
    decreases p, 0
  {
    if p.Then? && !s.aborted {
      WriteCounts(s, p.text, p.outcome, p.inner, depth);
      ScriptCounts(Written(s, p.text, p.outcome, p.inner, depth), p.next, depth);
    }
  }

  /** The counts that the calls of ::write made in one operation return. */
  function ReturnedBy(s: State, op: Op): nat
    requires Legal(s, op)
  {
    match op
    case Send(text, outcome, script) => ReturnedIn(s, text, outcome, script, 0)
    case WritableEvent(outcome, _) => if s.writing && outcome.Wrote? then outcome.n else 0
    case _ => 0
  }

  ghost function ReturnedSoFar(ss: seq<State>, ops: seq<Op>, events: H.Mask, i: nat): nat
    requires Execution(ss, ops, events) && i <= |ops|
  {
    if i == 0 then 0
    else
      assert Legal(ss[i - 1], ops[i - 1]);
      ReturnedSoFar(ss, ops, events, i - 1) + ReturnedBy(ss[i - 1], ops[i - 1])
  }

  lemma TakenByOp(s: State, op: Op)
    requires Legal(s, op)
    ensures |Apply(s, op).taken| == |s.taken| + ReturnedBy(s, op)
  {
    match op
    case Send(text, outcome, script) => WriteCounts(s, text, outcome, script, 0);
    case WritableEvent(outcome, capacity) => EventTakes(s, outcome, capacity);
    case _ =>
  }

  /** Main result: in every run the bytes the kernel has taken are as many as ::write has reported. */
  lemma {:induction false} TakenAsReturned(ss: seq<State>, ops: seq<Op>, events: H.Mask, i: nat)
    requires Execution(ss, ops, events) && i <= |ops|
    ensures |ss[i].taken| == ReturnedSoFar(ss, ops, events, i)
  {
    if i > 0 {
      assert Legal(ss[i - 1], ops[i - 1]);
      TakenAsReturned(ss, ops, events, i - 1);
      TakenByOp(ss[i - 1], ops[i - 1]);
    }
  }

  // ---------- Every accepted byte is on its way once ----------

  /** All bytes on their way out: those the kernel has taken, then those still buffered. */
  function Stream(s: State): string { s.taken + s.buffer.readable }

  /** order gives for every byte of the stream where it stands among those accepted. */
  ghost predicate Locates(order: seq<nat>, stream: string, accepted: string)
  {
    && |order| == |stream|
    && forall k :: 0 <= k < |order| ==> order[k] < |accepted| && stream[k] == accepted[order[k]]
  }

  ghost predicate BytesAgree(s: State) { Locates(s.order, Stream(s), s.accepted) }

  lemma PieceLocated(order: seq<nat>, stream: string, accepted: string, accepted': string, at: nat, piece: string)
    requires Locates(order, stream, accepted) && accepted <= accepted'
    requires at + |piece| <= |accepted'| && accepted'[at..at + |piece|] == piece
    ensures Locates(order + Range(at, at + |piece|), stream + piece, accepted')
  {
    var order' := order + Range(at, at + |piece|);
    forall k | 0 <= k < |order'|
      ensures order'[k] < |accepted'| && (stream + piece)[k] == accepted'[order'[k]]
    {
      if k < |order| {
        assert accepted'[order[k]] == accepted[order[k]];
      } else {
        assert piece[k - |order|] == accepted'[at..at + |piece|][k - |order|];
      }
    }
  }

  /** What has been accepted stays where it is. */
  lemma TextStays(accepted: string, text: string, n: nat, accepted': string)
    requires accepted + text <= accepted' && n <= |text|
    ensures |accepted| + |text| <= |accepted'| && accepted'[|accepted| + n..|accepted| + |text|] == text[n..]
  {
  }

  lemma StreamOfTake(s: State, text: string, outcome: Outcome, depth: nat)
    requires FlagsAgree(s) && LegalOutcome(text, outcome)
    ensures Stream(TakeAtOnce(s, text, outcome, depth)) == Stream(s) + text[..TakenAtOnce(s, outcome)]
  {
  }

  lemma StreamOfRest(s: State, rest: string, at: nat)
    ensures Stream(AppendRest(s, rest, at)) == Stream(s) + rest
  {
  }

  lemma TakeLocated(s: State, text: string, outcome: Outcome, depth: nat)
    requires FlagsAgree(s) && BytesAgree(s) && LegalOutcome(text, outcome)
    ensures BytesAgree(TakeAtOnce(s, text, outcome, depth))
  {
    var n, at := TakenAtOnce(s, outcome), |s.accepted|;
    StreamOfTake(s, text, outcome, depth);
    assert (s.accepted + text)[at..at + n] == text[..n];
    PieceLocated(s.order, Stream(s), s.accepted, s.accepted + text, at, text[..n]);
  }

  /** The bytes of a text accepted after those in accepted are still there when its rest is buffered. */
  lemma RestLocated(accepted: string, text: string, n: nat, s: State)
    requires BytesAgree(s) && n <= |text| && accepted + text <= s.accepted
    ensures BytesAgree(AppendRest(s, text[n..], |accepted| + n))
  {
    var at, rest := |accepted| + n, text[n..];
    TextStays(accepted, text, n, s.accepted);
    StreamOfRest(s, rest, at);
    assert at + |rest| == |accepted| + |text|;
    PieceLocated(s.order, Stream(s), s.accepted, s.accepted, at, rest);
  }

  lemma {:induction false} CallbackLocated(s: State, text: string, outcome: Outcome, inner: Script, depth: nat)
    requires FlagsAgree(s) && BytesAgree(s) && LegalOutcome(text, outcome) && LegalScript(inner)
    ensures BytesAgree(BeforeAppend(s, text, outcome, inner, depth))
    decreases inner, 1
  {
    TakeGrows(s, text, outcome, depth);
    TakeLocated(s, text, outcome, depth);
    if FiresHighWater(s, text, outcome) {
      ScriptLocated(Called(TakeAtOnce(s, text, outcome, depth), HighWater(depth)), inner, depth + 1);
    }
  }

  lemma AcceptedFirst(s: State, text: string, outcome: Outcome, inner: Script, depth: nat)
    requires FlagsAgree(s) && LegalOutcome(text, outcome) && LegalScript(inner)
    ensures s.accepted + text <= BeforeAppend(s, text, outcome, inner, depth).accepted
    ensures TakeAtOnce(s, text, outcome, depth).order <= BeforeAppend(s, text, outcome, inner, depth).order
  {
    TakeGrows(s, text, outcome, depth);
    if FiresHighWater(s, text, outcome) {
      ScriptGrows(Called(TakeAtOnce(s, text, outcome, depth), HighWater(depth)), inner, depth + 1);
    }
  }

  /** s' is after, with the rest of the text buffered if there is any. */
  lemma TailLocated(accepted: string, text: string, n: nat, after: State, s': State)
    requires BytesAgree(after) && n <= |text| && accepted + text <= after.accepted
    requires s' == if n == |text| || after.aborted then after else AppendRest(after, text[n..], |accepted| + n)
    ensures BytesAgree(s')
  {
    if n < |text| && !after.aborted {
      RestLocated(accepted, text, n, after);
    }
  }

  lemma {:induction false} WriteLocated(s: State, text: string, outcome: Outcome, inner: Script, depth: nat)
    requires FlagsAgree(s) && BytesAgree(s) && LegalOutcome(text, outcome) && LegalScript(inner)
    ensures BytesAgree(Written(s, text, outcome, inner, depth))
    decreases inner, 2
  {
    if !Aborts(s, outcome) {
      WrittenIs(s, text, outcome, inner, depth);
      CallbackLocated(s, text, outcome, inner, depth);
      AcceptedFirst(s, text, outcome, inner, depth);
      TailLocated(s.accepted, text, TakenAtOnce(s, outcome), BeforeAppend(s, text, outcome, inner, depth),
                  Written(s, text, outcome, inner, depth));
    }
  }

  lemma {:induction false} ScriptLocated(s: State, p: Script, depth: nat)
    requires FlagsAgree(s) && BytesAgree(s) && LegalScript(p)
    ensures BytesAgree(RunScript(s, p, depth))
    decreases p, 0
  {
    if p.Then? && !s.aborted {
      WriteGrows(s, p.text, p.outcome, p.inner, depth);
      WriteLocated(s, p.text, p.outcome, p.inner, depth);
      ScriptLocated(Written(s, p.text, p.outcome, p.inner, depth), p.next, depth);
    }
  }

  // ---------- No byte is lost or sent twice ----------

  lemma RangeSplits(a: nat, b: nat, c: nat)
    requires a <= b <= c
    ensures Range(a, b) + Range(b, c) == Range(a, c)
  {
  }

  /** x lists the positions from a up to b, each of them once, in any order. */
  ghost predicate Covers(x: seq<nat>, a: nat, b: nat)
  {
    && a <= b && |x| == b - a
    && (forall k :: 0 <= k < |x| ==> a <= x[k] < b)
    && (forall k, l :: 0 <= k < l < |x| ==> x[k] != x[l])
    && (forall p :: a <= p < b ==> p in x)
  }

  lemma RangeCovers(a: nat, b: nat)
    requires a <= b
    ensures Covers(Range(a, b), a, b)
  {
    forall p | a <= p < b ensures p in Range(a, b) {
      assert Range(a, b)[p - a] == p;
    }
  }

  lemma CoversJoin(x: seq<nat>, y: seq<nat>, a: nat, m: nat, b: nat)
    requires Covers(x, a, m) && Covers(y, m, b)
    ensures Covers(x + y, a, b)
  {
  }

  lemma CoversAround(x: seq<nat>, y: seq<nat>, z: seq<nat>, a: nat, m: nat, n: nat, b: nat)
    requires Covers(x, a, m) && Covers(y, n, b) && Covers(z, m, n)
    ensures Covers(x + y + z, a, b)
  {
  }

  /** The positions accepted between s and s' have been added to order. */
  ghost predicate AddsAccepted(s: State, s': State)
  {
    s.order <= s'.order && Covers(s'.order[|s.order|..], |s.accepted|, |s'.accepted|)
  }

  lemma AddsChain(a: State, b: State, c: State)
    requires AddsAccepted(a, b) && AddsAccepted(b, c)
    ensures AddsAccepted(a, c)
  {
    var x, y := b.order[|a.order|..], c.order[|b.order|..];
    CoversJoin(x, y, |a.accepted|, |b.accepted|, |c.accepted|);
    assert c.order[|a.order|..] == x + y;
  }

  /** While a callback runs, the rest of the message that fired it is still owed. */
  lemma {:induction false} CallbackAdds(s: State, text: string, outcome: Outcome, inner: Script, depth: nat)
    requires FlagsAgree(s) && LegalOutcome(text, outcome) && LegalScript(inner)
    requires !BeforeAppend(s, text, outcome, inner, depth).aborted
    ensures AddsAccepted(TakeAtOnce(s, text, outcome, depth), BeforeAppend(s, text, outcome, inner, depth))
    decreases inner, 1
  {
    TakeGrows(s, text, outcome, depth);
    if FiresHighWater(s, text, outcome) {
      ScriptAdds(Called(TakeAtOnce(s, text, outcome, depth), HighWater(depth)), inner, depth + 1);
    }
  }

  /** The last part of a write buffers the rest of its message, if there is any. */
  lemma WriteEnds(s: State, text: string, outcome: Outcome, inner: Script, depth: nat)
    requires LegalOutcome(text, outcome) && LegalScript(inner) && !Written(s, text, outcome, inner, depth).aborted
    ensures !Aborts(s, outcome) && !BeforeAppend(s, text, outcome, inner, depth).aborted
    ensures var s', after := Written(s, text, outcome, inner, depth), BeforeAppend(s, text, outcome, inner, depth);
            && s'.accepted == after.accepted && s'.log == after.log
            && s'.order == after.order + Range(|s.accepted| + TakenAtOnce(s, outcome), |s.accepted| + |text|)
            && Pending(s') == Pending(after) + |text| - TakenAtOnce(s, outcome)
  {
  }

  lemma OrderOfTake(s: State, text: string, outcome: Outcome, depth: nat)
    requires LegalOutcome(text, outcome)
    ensures var now := TakeAtOnce(s, text, outcome, depth);
            && now.order == s.order + Range(|s.accepted|, |s.accepted| + TakenAtOnce(s, outcome))
            && |now.accepted| == |s.accepted| + |text|
  {
  }

  lemma {:induction false} WriteAdds(s: State, text: string, outcome: Outcome, inner: Script, depth: nat)
    requires FlagsAgree(s) && LegalOutcome(text, outcome) && LegalScript(inner)
    requires !Written(s, text, outcome, inner, depth).aborted
    ensures AddsAccepted(s, Written(s, text, outcome, inner, depth))
    decreases inner, 2
  {
    var at, m, end := |s.accepted|, |s.accepted| + TakenAtOnce(s, outcome), |s.accepted| + |text|;
    var now, after := TakeAtOnce(s, text, outcome, depth), BeforeAppend(s, text, outcome, inner, depth);
    WriteEnds(s, text, outcome, inner, depth);
    CallbackAdds(s, text, outcome, inner, depth);
    OrderOfTake(s, text, outcome, depth);
    WriteCovers(s, now, after, Written(s, text, outcome, inner, depth), at, m, end);
  }

  /** s, then the part taken at once, then the callbacks, then the rest of the message. */
  lemma WriteCovers(s: State, now: State, after: State, s': State, at: nat, m: nat, end: nat)
    requires at == |s.accepted| <= m <= end == |now.accepted|
    requires now.order == s.order + Range(at, m) && AddsAccepted(now, after)
    requires s'.order == after.order + Range(m, end) && s'.accepted == after.accepted
    ensures AddsAccepted(s, s')
  {
    RangeCovers(at, m);
    RangeCovers(m, end);
    PartsCover(s.order, Range(at, m), after.order, Range(m, end), at, m, end, |after.accepted|);
  }

  /** The part taken at once, what callbacks sent, and the rest: together all that was accepted. */
  lemma PartsCover(before: seq<nat>, taken: seq<nat>, after: seq<nat>, rest: seq<nat>, a: nat, m: nat, n: nat, b: nat)
    requires before + taken <= after
    requires Covers(taken, a, m) && Covers(rest, m, n) && Covers(after[|before + taken|..], n, b)
    ensures before <= after + rest && Covers((after + rest)[|before|..], a, b)
  {
    CoversAround(taken, after[|before + taken|..], rest, a, m, n, b);
    OrderParts(before, taken, after, rest);
  }

  lemma OrderParts(before: seq<nat>, taken: seq<nat>, after: seq<nat>, rest: seq<nat>)
    requires before + taken <= after
    ensures before <= after + rest
    ensures (after + rest)[|before|..] == taken + after[|before + taken|..] + rest
  {
  }

  lemma {:induction false} ScriptAdds(s: State, p: Script, depth: nat)
    requires FlagsAgree(s) && LegalScript(p) && !RunScript(s, p, depth).aborted
    ensures AddsAccepted(s, RunScript(s, p, depth))
    decreases p, 0
  {
    if p.Then? {
      var m := Written(s, p.text, p.outcome, p.inner, depth);
      WriteGrows(s, p.text, p.outcome, p.inner, depth);
      WriteAdds(s, p.text, p.outcome, p.inner, depth);
      ScriptAdds(m, p.next, depth);
      AddsChain(s, m, RunScript(m, p.next, depth));
    }
  }

  // ---------- Order ----------

  /** The bytes leave in the order in which they were accepted. */
  ghost predicate InOrder(s: State) { s.order == Range(0, |s.accepted|) }

  /** The callback, called or not, has a byte to write. */
  predicate HasText(p: Script)
  {
    p.Then? && (p.text != "" || HasText(p.next))
  }

  lemma {:induction false} OnlyTextIsAccepted(s: State, p: Script, depth: nat)
    requires FlagsAgree(s) && LegalScript(p) && !RunScript(s, p, depth).aborted
    ensures |RunScript(s, p, depth).accepted| > |s.accepted| <==> HasText(p)
    decreases p
  {
    if p.Then? {
      var m := Written(s, p.text, p.outcome, p.inner, depth);
      WriteGrows(s, p.text, p.outcome, p.inner, depth);
      AcceptedFirst(s, p.text, p.outcome, p.inner, depth);
      ScriptGrows(m, p.next, depth);
      OnlyTextIsAccepted(m, p.next, depth);
    }
  }

  /** Bytes of later messages go out before the rest of this one. */
  predicate Overtakes(s: State, text: string, outcome: Outcome, inner: Script)
    requires LegalOutcome(text, outcome)
  {
    FiresHighWater(s, text, outcome) && HasText(inner)
  }

  /** What the callback has put out by the time the rest of the message is buffered. */
  lemma CallbackOrder(s: State, text: string, outcome: Outcome, inner: Script, depth: nat)
    requires FlagsAgree(s) && LegalOutcome(text, outcome) && LegalScript(inner)
    requires !BeforeAppend(s, text, outcome, inner, depth).aborted
    ensures var now, after := TakeAtOnce(s, text, outcome, depth), BeforeAppend(s, text, outcome, inner, depth);
            && now.order <= after.order
            && |now.accepted| == |s.accepted| + |text| <= |after.accepted|
            && |after.order| == |now.order| + (|after.accepted| - |now.accepted|)
            && (|after.accepted| > |now.accepted| <==> Overtakes(s, text, outcome, inner))
            && (|after.accepted| > |now.accepted| ==> after.order[|now.order|] >= |now.accepted|)
  {
    var now, after := TakeAtOnce(s, text, outcome, depth), BeforeAppend(s, text, outcome, inner, depth);
    TakeGrows(s, text, outcome, depth);
    CallbackAdds(s, text, outcome, inner, depth);
    AcceptedFirst(s, text, outcome, inner, depth);
    var later := after.order[|now.order|..];
    assert |later| > 0 ==> later[0] == after.order[|now.order|];
    if FiresHighWater(s, text, outcome) {
      OnlyTextIsAccepted(Called(now, HighWater(depth)), inner, depth + 1);
    }
  }

  /** A write keeps the order if and only if its high-water callback is not called or writes nothing. */
  lemma OrderKeptIff(s: State, text: string, outcome: Outcome, inner: Script, depth: nat)
    requires FlagsAgree(s) && InOrder(s) && LegalOutcome(text, outcome) && LegalScript(inner)
    requires !Written(s, text, outcome, inner, depth).aborted
    ensures InOrder(Written(s, text, outcome, inner, depth)) <==> !Overtakes(s, text, outcome, inner)
  {
    var n, at := TakenAtOnce(s, outcome), |s.accepted|;
    var s' := Written(s, text, outcome, inner, depth);
    OrderOfTake(s, text, outcome, depth);
    RangeSplits(0, at, at + n);
    CallbackOrder(s, text, outcome, inner, depth);
    if Overtakes(s, text, outcome, inner) {
      assert s'.order[at + n] >= at + |text| && Range(0, |s'.accepted|)[at + n] == at + n;
    } else {
      RangeSplits(0, at + n, at + |text|);
      assert BeforeAppend(s, text, outcome, inner, depth).order == Range(0, at + n);
    }
  }

  // ---------- Which callbacks are called ----------

  /** A high-water callback has been called between s and s'. */
  ghost predicate FiredBetween(s: State, s': State)
  {
    exists k :: |s.log| <= k < |s'.log| && s'.log[k].HighWater?
  }

  lemma FiredChain(a: State, b: State, c: State)
    requires Grows(a, b) && Grows(b, c)
    ensures FiredBetween(a, c) <==> FiredBetween(a, b) || FiredBetween(b, c)
  {
    if k :| |a.log| <= k < |b.log| && b.log[k].HighWater? {
      assert c.log[k] == b.log[k];
    }
    if k :| |a.log| <= k < |c.log| && c.log[k].HighWater? {
      assert k < |b.log| ==> c.log[k] == b.log[k];
    }
  }

  /** Pending output has gone from below the mark to at or above it. */
  predicate Crosses(s: State, s': State)
  {
    s.highWater && Pending(s) < s.highWaterMark <= Pending(s')
  }

  lemma NotFiredIsQuiet(s: State, text: string, outcome: Outcome, inner: Script, depth: nat)
    requires FlagsAgree(s) && LegalOutcome(text, outcome) && LegalScript(inner) && !FiresHighWater(s, text, outcome)
    requires !Written(s, text, outcome, inner, depth).aborted
    ensures !FiredBetween(s, Written(s, text, outcome, inner, depth))
    ensures Pending(Written(s, text, outcome, inner, depth)) == Pending(s) + |text| - TakenAtOnce(s, outcome)
  {
    WriteEnds(s, text, outcome, inner, depth);
    assert BeforeAppend(s, text, outcome, inner, depth) == TakeAtOnce(s, text, outcome, depth);
  }

  lemma FiredIsLogged(s: State, text: string, outcome: Outcome, inner: Script, depth: nat)
    requires FlagsAgree(s) && LegalOutcome(text, outcome) && LegalScript(inner) && FiresHighWater(s, text, outcome)
    requires !Written(s, text, outcome, inner, depth).aborted
    ensures FiredBetween(s, Written(s, text, outcome, inner, depth))
    ensures Pending(Written(s, text, outcome, inner, depth)) >= Pending(s) + |text| - TakenAtOnce(s, outcome)
  {
    var called := Called(TakeAtOnce(s, text, outcome, depth), HighWater(depth));
    TakeGrows(s, text, outcome, depth);
    ScriptGrows(called, inner, depth + 1);
    WriteEnds(s, text, outcome, inner, depth);
    var k := |called.log| - 1;
    assert Written(s, text, outcome, inner, depth).log[k] == called.log[k];
  }

  /** A write, with all that callbacks write inside it, calls the high-water callback iff it crosses the mark. */
  lemma WriteFiresIff(s: State, text: string, outcome: Outcome, inner: Script, depth: nat)
    requires FlagsAgree(s) && LegalOutcome(text, outcome) && LegalScript(inner)
    requires !Written(s, text, outcome, inner, depth).aborted
    ensures FiredBetween(s, Written(s, text, outcome, inner, depth)) <==> FiresHighWater(s, text, outcome)
    ensures FiresHighWater(s, text, outcome) <==> Crosses(s, Written(s, text, outcome, inner, depth))
  {
    if FiresHighWater(s, text, outcome) {
      FiredIsLogged(s, text, outcome, inner, depth);
    } else {
      NotFiredIsQuiet(s, text, outcome, inner, depth);
    }
  }

  /** Any number of writes calls it at all iff together they cross the mark. */
  lemma {:induction false} ScriptFiresIff(s: State, p: Script, depth: nat)
    requires FlagsAgree(s) && LegalScript(p) && !RunScript(s, p, depth).aborted
    ensures FiredBetween(s, RunScript(s, p, depth)) <==> Crosses(s, RunScript(s, p, depth))
    decreases p
  {
    if p.Then? {
      var m := Written(s, p.text, p.outcome, p.inner, depth);
      WriteGrows(s, p.text, p.outcome, p.inner, depth);
      WriteFiresIff(s, p.text, p.outcome, p.inner, depth);
      ScriptGrows(m, p.next, depth);
      ScriptFiresIff(m, p.next, depth);
      FiredChain(s, m, RunScript(m, p.next, depth));
    }
  }

  /**
   Main result: a callback is called again while it runs, with nothing drained in between, if and
   only if what it writes brings the pending output to the mark by itself.
   */
  lemma FiresAgainIff(s: State, text: string, outcome: Outcome, inner: Script, depth: nat)
    requires FlagsAgree(s) && LegalOutcome(text, outcome) && LegalScript(inner) && FiresHighWater(s, text, outcome)
    requires !BeforeAppend(s, text, outcome, inner, depth).aborted
    ensures FiredBetween(AtCallback(s, text, outcome, depth), BeforeAppend(s, text, outcome, inner, depth)) <==>
              Pending(BeforeAppend(s, text, outcome, inner, depth)) >= s.highWaterMark
  {
    TakeGrows(s, text, outcome, depth);
    ScriptFiresIff(AtCallback(s, text, outcome, depth), inner, depth + 1);
  }

  /** For the first write of the callback: iff what the kernel leaves of it reaches the mark. */
  lemma FirstInnerFiresIff(s: State, text: string, outcome: Outcome, depth: nat, inner: string, innerOutcome: Outcome)
    requires LegalOutcome(text, outcome) && LegalOutcome(inner, innerOutcome) && FiresHighWater(s, text, outcome)
    requires !Aborts(s, innerOutcome)
    ensures FiresHighWater(AtCallback(s, text, outcome, depth), inner, innerOutcome) <==>
              Pending(s) + |inner| - TakenAtOnce(s, innerOutcome) >= s.highWaterMark
  {
  }

  /** Every write-complete callback queued between s and s' knows whether it is inside another callback. */
  ghost predicate CompletionsRight(s: State, s': State)
  {
    forall k :: |s.log| <= k < |s'.log| && s'.log[k].WriteComplete? ==>
      (s'.log[k].allTaken <==> s'.log[k].depth == 0)
  }

  /** Bytes are owed exactly while a callback runs inside the write they belong to. */
  ghost predicate OwesAt(s: State, depth: nat)
  {
    |s.order| <= |s.accepted| && (depth == 0 <==> |s.order| == |s.accepted|)
  }

  lemma CompletionsChain(a: State, b: State, c: State)
    requires Grows(a, b) && Grows(b, c) && CompletionsRight(a, b) && CompletionsRight(b, c)
    ensures CompletionsRight(a, c)
  {
    forall k | |a.log| <= k < |c.log| && c.log[k].WriteComplete?
      ensures c.log[k].allTaken <==> c.log[k].depth == 0
    {
      assert k < |b.log| ==> c.log[k] == b.log[k];
    }
  }

  lemma TakeCompletesRight(s: State, text: string, outcome: Outcome, depth: nat)
    requires FlagsAgree(s) && BytesAgree(s) && OwesAt(s, depth) && LegalOutcome(text, outcome)
    ensures CompletionsRight(s, TakeAtOnce(s, text, outcome, depth))
  {
    var n := TakenAtOnce(s, outcome);
    TakeLocated(s, text, outcome, depth);
  }

  lemma {:induction false} CallbackCompletesRight(s: State, text: string, outcome: Outcome, inner: Script, depth: nat)
    requires FlagsAgree(s) && BytesAgree(s) && OwesAt(s, depth) && LegalOutcome(text, outcome) && LegalScript(inner)
    ensures CompletionsRight(s, BeforeAppend(s, text, outcome, inner, depth))
    decreases inner, 1
  {
    TakeGrows(s, text, outcome, depth);
    TakeLocated(s, text, outcome, depth);
    TakeCompletesRight(s, text, outcome, depth);
    if FiresHighWater(s, text, outcome) {
      var called := AtCallback(s, text, outcome, depth);
      assert CompletionsRight(s, called);
      ScriptGrows(called, inner, depth + 1);
      ScriptCompletesRight(called, inner, depth + 1);
      CompletionsChain(s, called, RunScript(called, inner, depth + 1));
    }
  }

  lemma {:induction false} WriteCompletesRight(s: State, text: string, outcome: Outcome, inner: Script, depth: nat)
    requires FlagsAgree(s) && BytesAgree(s) && OwesAt(s, depth) && LegalOutcome(text, outcome) && LegalScript(inner)
    ensures CompletionsRight(s, Written(s, text, outcome, inner, depth))
    decreases inner, 2
  {
    if !Aborts(s, outcome) {
      CallbackCompletesRight(s, text, outcome, inner, depth);
      assert Written(s, text, outcome, inner, depth).log == BeforeAppend(s, text, outcome, inner, depth).log;
    }
  }

  lemma {:induction false} ScriptCompletesRight(s: State, p: Script, depth: nat)
    requires FlagsAgree(s) && BytesAgree(s) && OwesAt(s, depth) && LegalScript(p)
    ensures CompletionsRight(s, RunScript(s, p, depth))
    decreases p, 0
  {
    if p.Then? && !s.aborted {
      var m := Written(s, p.text, p.outcome, p.inner, depth);
      WriteGrows(s, p.text, p.outcome, p.inner, depth);
      WriteCompletesRight(s, p.text, p.outcome, p.inner, depth);
      if !m.aborted {
        WriteLocated(s, p.text, p.outcome, p.inner, depth);
        WriteAdds(s, p.text, p.outcome, p.inner, depth);
        ScriptCompletesRight(m, p.next, depth);
        ScriptGrows(m, p.next, depth);
        CompletionsChain(s, m, RunScript(m, p.next, depth));
      }
    }
  }

  lemma OneWrite(s: State, text: string, outcome: Outcome, inner: Script, depth: nat)
    requires !s.aborted && LegalOutcome(text, outcome) && LegalScript(inner)
    ensures RunScript(s, Then(text, outcome, inner, Nothing), depth) == Written(s, text, outcome, inner, depth)
  {
    var m := Written(s, text, outcome, inner, depth);
    assert RunScript(m, Nothing, depth) == m;
  }

  /**
   Main result: a callback with a single write queues a write-complete callback too early, while
   bytes of the message that fired it are not with the kernel, if and only if nothing was queued
   before that message, the kernel takes that write whole, and a write-complete callback is set.
   */
  lemma CompletesEarlyIff(s: State, text: string, outcome: Outcome, depth: nat, inner: string, innerOutcome: Outcome)
    requires FlagsAgree(s) && BytesAgree(s) && OwesAt(s, depth) && !s.aborted
    requires LegalOutcome(text, outcome) && LegalOutcome(inner, innerOutcome) && FiresHighWater(s, text, outcome)
    ensures var called := AtCallback(s, text, outcome, depth);
            var after := BeforeAppend(s, text, outcome, Then(inner, innerOutcome, Nothing, Nothing), depth);
            (exists k :: |called.log| <= k < |after.log| && after.log[k].WriteComplete? && !after.log[k].allTaken)
            <==> Direct(s) && innerOutcome == Wrote(|inner|) && s.writeComplete
  {
    var called := AtCallback(s, text, outcome, depth);
    var after := BeforeAppend(s, text, outcome, Then(inner, innerOutcome, Nothing, Nothing), depth);
    TakeGrows(s, text, outcome, depth);
    TakeLocated(s, text, outcome, depth);
    WriteCompletesRight(called, inner, innerOutcome, Nothing, depth + 1);
    OneWrite(called, inner, innerOutcome, Nothing, depth + 1);
    if CompletesAtOnce(called, inner, innerOutcome) {
      assert after.log[|called.log|] == WriteComplete(depth + 1, |after.taken| == |after.accepted|);
    }
  }

  // ---------- What holds over whole runs ----------

  ghost predicate Inv(s: State)
  {
    && FlagsAgree(s) && BytesAgree(s) && s.buffer.Size() >= B.CHEAP_PREPEND
    && (!s.aborted ==> Covers(s.order, 0, |s.accepted|))
    && (forall k :: 0 <= k < |s.log| ==> RightEvent(s.log[k]))
  }

  lemma SendKeepsInv(s: State, text: string, outcome: Outcome, script: Script)
    requires Inv(s) && !s.aborted && LegalOutcome(text, outcome) && LegalScript(script)
    ensures Inv(Written(s, text, outcome, script, 0))
  {
    var s' := Written(s, text, outcome, script, 0);
    WriteGrows(s, text, outcome, script, 0);
    WriteLocated(s, text, outcome, script, 0);
    WriteCompletesRight(s, text, outcome, script, 0);
    if !s'.aborted {
      WriteAdds(s, text, outcome, script, 0);
      StaysCovered(s.order, s'.order, |s.accepted|, |s'.accepted|);
    }
    assert forall k :: |s.log| <= k < |s'.log| ==> RightEvent(s'.log[k]);
    LogPartsRight(s.log, s'.log);
  }

  lemma StaysCovered(before: seq<nat>, after: seq<nat>, m: nat, end: nat)
    requires before <= after && Covers(before, 0, m) && Covers(after[|before|..], m, end)
    ensures Covers(after, 0, end)
  {
    CoversJoin(before, after[|before|..], 0, m, end);
    assert after == before + after[|before|..];
  }

  /** A write-complete callback is queued with all bytes taken iff it is not inside another callback. */
  predicate RightEvent(event: Event)
  {
    event.WriteComplete? ==> (event.allTaken <==> event.depth == 0)
  }

  lemma LogPartsRight(before: seq<Event>, after: seq<Event>)
    requires before <= after
    requires forall k :: 0 <= k < |before| ==> RightEvent(before[k])
    requires forall k :: |before| <= k < |after| ==> RightEvent(after[k])
    ensures forall k :: 0 <= k < |after| ==> RightEvent(after[k])
  {
    forall k | 0 <= k < |after| ensures RightEvent(after[k]) {
      assert k < |before| ==> after[k] == before[k];
    }
  }

  lemma EventKeepsStream(s: State, outcome: Outcome, capacity: nat)
    requires FlagsAgree(s) && LegalEvent(s, outcome, capacity)
    ensures Stream(AfterEvent(s, outcome, capacity)) == Stream(s) && FlagsAgree(AfterEvent(s, outcome, capacity))
  {
  }

  lemma EventKeepsInv(s: State, outcome: Outcome, capacity: nat)
    requires Inv(s) && LegalEvent(s, outcome, capacity)
    ensures !s.aborted ==> Inv(AfterEvent(s, outcome, capacity))
  {
    EventKeepsStream(s, outcome, capacity);
  }

  lemma StepKeepsInv(s: State, op: Op)
    requires Inv(s) && Legal(s, op)
    ensures Inv(Apply(s, op))
  {
    match op
    case Send(text, outcome, script) => SendKeepsInv(s, text, outcome, script);
    case WritableEvent(outcome, capacity) => EventKeepsInv(s, outcome, capacity);
    case _ =>
  }

  lemma {:induction false} InvAlways(ss: seq<State>, ops: seq<Op>, events: H.Mask, i: nat)
    requires Execution(ss, ops, events) && i < |ss|
    ensures Inv(ss[i])
  {
    if i > 0 {
      InvAlways(ss, ops, events, i - 1);
      StepKeepsInv(ss[i - 1], ops[i - 1]);
    }
  }

  /**
   Main result: after any sequence of writes and writable events, with any partial counts and
   errors and with callbacks that write in the middle of it, every accepted byte is on its way
   exactly once, with the kernel or in the buffer; and writing_, a non-empty buffer and EPOLLOUT
   in the mask are one and the same.
   */
  lemma OutputConserved(ss: seq<State>, ops: seq<Op>, events: H.Mask, i: nat)
    requires Execution(ss, ops, events) && i < |ss|
    ensures Locates(ss[i].order, ss[i].taken + ss[i].buffer.readable, ss[i].accepted)
    ensures !ss[i].aborted ==> Covers(ss[i].order, 0, |ss[i].accepted|)
    ensures ss[i].writing <==> ss[i].buffer.readable != ""
    ensures ss[i].writing <==> H.OUT in ss[i].events
  {
    InvAlways(ss, ops, events, i);
  }

  /** A high-water callback called by op writes bytes. */
  predicate OvertakenBy(s: State, op: Op)
    requires Legal(s, op)
  {
    op.Send? && Overtakes(s, op.text, op.outcome, op.script)
  }

  lemma OrderNeverRestored(s: State, s': State)
    requires |s.order| == |s.accepted| && s.order <= s'.order && InOrder(s')
    ensures InOrder(s)
  {
    forall k | 0 <= k < |s.order| ensures s.order[k] == Range(0, |s.accepted|)[k] {
      assert s.order[k] == s'.order[k];
    }
  }

  lemma OrderStep(s: State, op: Op)
    requires Inv(s) && Legal(s, op) && !Apply(s, op).aborted
    ensures InOrder(Apply(s, op)) <==> InOrder(s) && !OvertakenBy(s, op)
  {
    match op
    case Send(text, outcome, script) =>
      if InOrder(s) {
        OrderKeptIff(s, text, outcome, script, 0);
      } else {
        WriteGrows(s, text, outcome, script, 0);
        if InOrder(Apply(s, op)) {
          OrderNeverRestored(s, Apply(s, op));
        }
      }
    case _ =>
  }

  lemma InOrderIsTheStream(s: State)
    requires BytesAgree(s) && InOrder(s)
    ensures s.taken + s.buffer.readable == s.accepted
  {
    assert forall k :: 0 <= k < |s.order| ==> s.order[k] == k;
  }

  /**
   Main result: in every run the bytes taken followed by those buffered are the accepted bytes in
   order if and only if no high-water callback has written a byte.
   */
  lemma {:induction false} OutputInOrderIff(ss: seq<State>, ops: seq<Op>, events: H.Mask, i: nat)
    requires Execution(ss, ops, events) && i < |ss| && !ss[i].aborted
    ensures InOrder(ss[i]) <==> forall k :: 0 <= k < i ==> !OvertakenBy(ss[k], ops[k])
    ensures InOrder(ss[i]) ==> ss[i].taken + ss[i].buffer.readable == ss[i].accepted
  {
    InvAlways(ss, ops, events, i);
    if InOrder(ss[i]) {
      InOrderIsTheStream(ss[i]);
    }
    if i > 0 {
      assert Legal(ss[i - 1], ops[i - 1]);
      InvAlways(ss, ops, events, i - 1);
      OutputInOrderIff(ss, ops, events, i - 1);
      OrderStep(ss[i - 1], ops[i - 1]);
    }
  }

  function TextOf(op: Op): string
  {
    if op.Send? then op.text else ""
  }

  function Messages(ops: seq<Op>): string
  {
    if ops == [] then "" else Messages(ops[..|ops| - 1]) + TextOf(ops[|ops| - 1])
  }

  lemma AcceptsItsMessage(s: State, op: Op)
    requires Inv(s) && Legal(s, op) && !Apply(s, op).aborted && !OvertakenBy(s, op)
    ensures Apply(s, op).accepted == s.accepted + TextOf(op)
  {
    if op.Send? {
      WriteEnds(s, op.text, op.outcome, op.script, 0);
      AcceptedFirst(s, op.text, op.outcome, op.script, 0);
      CallbackOrder(s, op.text, op.outcome, op.script, 0);
    } else {
      assert s.accepted + "" == s.accepted;
    }
  }

  /** Then the accepted bytes are those of the messages sent, one after the other. */
  lemma {:induction false} AcceptedAreTheMessages(ss: seq<State>, ops: seq<Op>, events: H.Mask, i: nat)
    requires Execution(ss, ops, events) && i < |ss| && !ss[i].aborted
    requires forall k :: 0 <= k < i ==> !OvertakenBy(ss[k], ops[k])
    ensures ss[i].accepted == Messages(ops[..i])
  {
    if i > 0 {
      assert Legal(ss[i - 1], ops[i - 1]);
      InvAlways(ss, ops, events, i - 1);
      AcceptsItsMessage(ss[i - 1], ops[i - 1]);
      AcceptedAreTheMessages(ss, ops, events, i - 1);
      assert ops[..i][..i - 1] == ops[..i - 1];
    }
  }

  // ---------- Flow control over runs ----------

  /** The callback is called in an operation iff the operation takes the output across the mark. */
  lemma FiresOnCrossing(s: State, op: Op)
    requires Inv(s) && Legal(s, op) && !Apply(s, op).aborted
    ensures Fires(s, op) <==> Crosses(s, Apply(s, op))
    ensures Fires(s, op) <==> FiredBetween(s, Apply(s, op))
  {
    match op
    case Send(text, outcome, script) => WriteFiresIff(s, text, outcome, script, 0);
    case WritableEvent(outcome, capacity) => EventFiresNothing(s, outcome, capacity);
    case _ =>
  }

  lemma EventFiresNothing(s: State, outcome: Outcome, capacity: nat)
    requires LegalEvent(s, outcome, capacity)
    ensures !FiredBetween(s, AfterEvent(s, outcome, capacity))
    ensures Pending(AfterEvent(s, outcome, capacity)) <= Pending(s)
  {
  }

  predicate MarkFixed(ops: seq<Op>) { forall k :: 0 <= k < |ops| ==> !ops[k].SetHighWater? }

  lemma MarkStep(s: State, op: Op)
    requires Inv(s) && Legal(s, op) && !op.SetHighWater?
    ensures Apply(s, op).highWaterMark == s.highWaterMark
  {
    if op.Send? {
      WriteGrows(s, op.text, op.outcome, op.script, 0);
    }
  }

  lemma {:induction false} MarkStays(ss: seq<State>, ops: seq<Op>, events: H.Mask, i: nat, j: nat)
    requires Execution(ss, ops, events) && i <= j <= |ops| && MarkFixed(ops[i..j])
    ensures ss[j].highWaterMark == ss[i].highWaterMark
  {
    if i < j {
      assert ops[i..j][..j - 1 - i] == ops[i..j - 1];
      MarkStays(ss, ops, events, i, j - 1);
      assert ops[i..j][j - 1 - i] == ops[j - 1];
      InvAlways(ss, ops, events, j - 1);
      MarkStep(ss[j - 1], ops[j - 1]);
    }
  }

  lemma OnlyEventsDrain(s: State, op: Op)
    requires Inv(s) && Legal(s, op) && Pending(Apply(s, op)) < Pending(s)
    ensures op.WritableEvent?
  {
    if op.Send? {
      WriteGrows(s, op.text, op.outcome, op.script, 0);
    }
  }

  /**
   Main result: right after an operation in which the callback is called the pending output is at
   or above the mark, and when an operation finds it below the same mark again, as another one that
   calls the callback does, a writable event has taken it across the mark in between.
   */
  lemma {:induction false} DrainedBetweenFirings(ss: seq<State>, ops: seq<Op>, events: H.Mask, i: nat, j: nat)
    returns (k: nat)
    requires Execution(ss, ops, events) && i < j < |ss| && !ss[j].aborted && MarkFixed(ops[i..j])
    requires Legal(ss[i], ops[i]) && Fires(ss[i], ops[i]) && Pending(ss[j]) < ss[j].highWaterMark
    ensures Pending(ss[i + 1]) >= ss[i].highWaterMark
    ensures i < k < j && ops[k].WritableEvent?
    ensures Pending(ss[k]) >= ss[i].highWaterMark > Pending(ss[k + 1])
    decreases j
  {
    assert Legal(ss[j - 1], ops[j - 1]);
    InvAlways(ss, ops, events, i);
    assert !ss[i + 1].aborted by {
      if i + 1 < j {
        assert Legal(ss[i + 1], ops[i + 1]);
      }
    }
    FiresOnCrossing(ss[i], ops[i]);
    MarkStays(ss, ops, events, i, j);
    assert i + 1 != j;
    k := j - 1;
    InvAlways(ss, ops, events, k);
    assert ops[i..j][..k - i] == ops[i..k];
    MarkStays(ss, ops, events, i, k);
    if Pending(ss[k]) < ss[i].highWaterMark {
      k := DrainedBetweenFirings(ss, ops, events, i, k);
    } else {
      OnlyEventsDrain(ss[k], ops[k]);
    }
  }

  /**
   Main result: in every run a write-complete callback is queued with all accepted bytes at the
   kernel if and only if it is not queued from inside a high-water callback.
   */
  lemma CompleteMeansAllTaken(ss: seq<State>, ops: seq<Op>, events: H.Mask, i: nat, k: nat)
    requires Execution(ss, ops, events) && i < |ss| && k < |ss[i].log| && ss[i].log[k].WriteComplete?
    ensures ss[i].log[k].allTaken <==> ss[i].log[k].depth == 0
  {
    InvAlways(ss, ops, events, i);
    assert RightEvent(ss[i].log[k]);
  }

  /** ... and one is queued whenever the last pending byte is taken. */
  lemma CompletesWhenDrained(s: State, op: Op)
    requires Inv(s) && Legal(s, op) && s.writeComplete && Pending(s) > 0 && Pending(Apply(s, op)) == 0
    ensures Apply(s, op).log == s.log + [WriteComplete(0, true)]
  {
    OnlyEventsDrain(s, op);
    EventKeepsInv(s, op.outcome, op.capacity);
  }

  // ---------- What the callback can spoil, by example ----------

  /** The connection after setting the callbacks, with the mark at 2. */
  lemma CallbacksSet(events: H.Mask) returns (ss: seq<State>, ops: seq<Op>)
    ensures Execution(ss, ops, events) && |ops| == 2
    ensures ss[2] == Initial(events).(highWaterMark := 2, highWater := true, writeComplete := true)
  {
    ops := [SetHighWater(2, true), SetWriteComplete(true)];
    var first := Apply(Initial(events), ops[0]);
    ss := [Initial(events), first, Apply(first, ops[1])];
  }

  lemma RunGrows(ss: seq<State>, ops: seq<Op>, events: H.Mask, op: Op)
    requires Execution(ss, ops, events) && Legal(ss[|ops|], op)
    ensures Execution(ss + [Apply(ss[|ops|], op)], ops + [op], events)
  {
  }

  /** Nothing written yet, the mark at 2, both callbacks set. */
  predicate ReadyToFire(s: State)
  {
    && s.buffer.readable == "" && !s.writing && s.highWaterMark == 2 && s.highWater && s.writeComplete
    && !s.aborted && s.accepted == "" && s.taken == "" && s.order == [] && s.log == []
  }

  const BLOCKED_INNER := Then("bb", WouldBlock, Nothing, Nothing)

  lemma BlockedInner(s: State)
    requires ReadyToFire(s)
    ensures var after := BeforeAppend(s, "aaa", WouldBlock, BLOCKED_INNER, 0);
            && after.log == [HighWater(0), HighWater(1)] && !after.aborted
            && after.taken == "" && after.buffer.readable == "bb"
  {
    var called := AtCallback(s, "aaa", WouldBlock, 0);
    assert called.accepted == "aaa" && called.taken == "" && called.order == [] && called.log == [HighWater(0)];
    OneWrite(called, "bb", WouldBlock, Nothing, 1);
    assert FiresHighWater(called, "bb", WouldBlock);
    var inner := AtCallback(called, "bb", WouldBlock, 1);
    assert inner.taken == "" && inner.log == [HighWater(0), HighWater(1)];
    assert RunScript(inner, Nothing, 2) == inner;
    assert BeforeAppend(called, "bb", WouldBlock, Nothing, 1) == inner;
    assert "bb"[0..] == "bb" && "" + "bb" == "bb";
  }

  /** "aaa" would block and fires; the callback writes "bb", which fires again with nothing drained. */
  lemma FiresTwiceExample(events: H.Mask) returns (ss: seq<State>, ops: seq<Op>)
    ensures Execution(ss, ops, events) && |ops| == 3
    ensures ss[3].log == [HighWater(0), HighWater(1)] && !ss[3].aborted
    ensures ss[3].taken == "" && ss[3].buffer.readable == "bbaaa"
  {
    ss, ops := CallbacksSet(events);
    var op := Send("aaa", WouldBlock, BLOCKED_INNER);
    RunGrows(ss, ops, events, op);
    BlockedInner(ss[2]);
    WrittenIs(ss[2], "aaa", WouldBlock, BLOCKED_INNER, 0);
    assert "aaa"[0..] == "aaa" && "bb" + "aaa" == "bbaaa";
    ss, ops := ss + [Apply(ss[2], op)], ops + [op];
  }

  const WHOLE_INNER := Then("b", Wrote(1), Nothing, Nothing)

  lemma WholeInner(s: State)
    requires ReadyToFire(s)
    ensures var after := BeforeAppend(s, "aaa", Wrote(1), WHOLE_INNER, 0);
            && after.log == [HighWater(0), WriteComplete(1, false)] && !after.aborted
            && after.taken == "ab" && after.buffer.readable == "" && after.accepted == "aaab" && after.order == [0, 3]
  {
    var called := AtCallback(s, "aaa", Wrote(1), 0);
    assert "aaa"[..1] == "a" && Range(0, 1) == [0];
    assert called.accepted == "aaa" && called.taken == "a" && called.order == [0] && called.log == [HighWater(0)];
    OneWrite(called, "b", Wrote(1), Nothing, 1);
    assert "b"[..1] == "b" && Range(3, 4) == [3];
  }

  /**
   The kernel takes "a" of "aaa", which fires; the callback writes "b", which the kernel takes whole.
   A write-complete callback is queued while "aa" is buffered, and "b" has overtaken it.
   */
  lemma CompletesEarlyExample(events: H.Mask) returns (ss: seq<State>, ops: seq<Op>)
    ensures Execution(ss, ops, events) && |ops| == 3
    ensures ss[3].log == [HighWater(0), WriteComplete(1, false)] && !ss[3].aborted
    ensures ss[3].taken == "ab" && ss[3].buffer.readable == "aa" && ss[3].accepted == "aaab" && !InOrder(ss[3])
  {
    ss, ops := CallbacksSet(events);
    var op := Send("aaa", Wrote(1), WHOLE_INNER);
    RunGrows(ss, ops, events, op);
    WholeInner(ss[2]);
    WrittenIs(ss[2], "aaa", Wrote(1), WHOLE_INNER, 0);
    assert "aaa"[1..] == "aa";
    ss, ops := ss + [Apply(ss[2], op)], ops + [op];
    assert ss[3].order[1] == 3 && Range(0, 4)[1] == 1;
  }

  // ---------- The connection ----------

  /** A callback that has been invoked, or queued. */
  datatype Call = HighWaterCall | WriteCompleteCall

  function CallOf(event: Event): Call
  {
    if event.HighWater? then HighWaterCall else WriteCompleteCall
  }

  function Calls(log: seq<Event>): (calls: seq<Call>)
    ensures |calls| == |log|
  {
    seq(|log|, i requires 0 <= i < |log| => CallOf(log[i]))
  }

  lemma OneMoreCall(log: seq<Event>, event: Event)
    ensures Calls(log + [event]) == Calls(log) + [CallOf(event)]
  {
  }

  class TCPConnection {
    const writeBuffer: B.Buffer
    var writing: bool
    var events: H.Mask
    var highWaterMark: nat
    var highWater: bool
    var writeComplete: bool
    var aborted: bool
    var calls: seq<Call>

    ghost predicate Represents(s: State)
      reads this, writeBuffer, writeBuffer.data
    {
      && writeBuffer.Valid() && writeBuffer.Observed() == s.buffer
      && writing == s.writing && events == s.events
      && highWaterMark == s.highWaterMark && highWater == s.highWater && writeComplete == s.writeComplete
      && aborted == s.aborted && calls == Calls(s.log)
    }

    /** Setting the four callbacks turns their events on; the write event is then turned off. */
    constructor (events: H.Mask)
      ensures Represents(Initial(events)) && fresh(writeBuffer) && fresh(writeBuffer.data)
    {
      writeBuffer := new B.Buffer(B.INITIAL_SIZE);
      writing, highWaterMark, highWater, writeComplete := false, HIGH_WATER_MARK, false, false;
      aborted, calls := false, [];
      this.events := events + {H.IN, H.OUT, H.RDHUP, H.ERR} - {H.OUT};
    }

    method SetHighWaterMarkCallback(mark: nat, isSet: bool, ghost s: State)
      requires Represents(s) && !s.aborted
      modifies this`highWaterMark, this`highWater
      ensures Represents(Apply(s, SetHighWater(mark, isSet))) && highWaterMark == mark && highWater == isSet
    {
      highWaterMark, highWater := mark, isSet;
    }

    method SetWriteEvent(on: bool)
      modifies this`events
      ensures events == if on then old(events) + {H.OUT} else old(events) - {H.OUT}
    {
      events := if on then events + {H.OUT} else events - {H.OUT};
    }

    /** The first part of writeInLoop: with nothing queued the kernel takes what it can. */
    method TryDirect(text: string, outcome: Outcome, ghost s: State, ghost depth: nat)
      returns (nwrote: nat)
      requires Represents(s) && !s.aborted && LegalOutcome(text, outcome)
      modifies this`aborted, this`calls
      ensures nwrote == TakenAtOnce(s, outcome) && (aborted <==> Aborts(s, outcome))
      ensures Represents(if aborted then s.(aborted := true) else TakeAtOnce(s, text, outcome, depth))
    {
      nwrote := 0;
      if !writing && writeBuffer.ReadableBytes() == 0 {
        if outcome.Wrote? {
          nwrote := outcome.n;
          if nwrote == |text| && writeComplete {
            ghost var now := TakeAtOnce(s, text, outcome, depth);
            OneMoreCall(s.log, WriteComplete(depth, |now.taken| == |now.accepted|));
            calls := calls + [WriteCompleteCall];
          }
        } else {
          aborted := outcome.Fault?;
        }
      }
    }

    /** The last part of writeInLoop: what the kernel did not take is buffered. */
    method AppendRemaining(rest: string, ghost at: nat, ghost s: State)
      requires Represents(s)
      modifies this`writing, this`events, writeBuffer, writeBuffer.data
      ensures Represents(AppendRest(s, rest, at))
      ensures writeBuffer.data == old(writeBuffer.data) || fresh(writeBuffer.data)
    {
      writeBuffer.AppendText(rest);
      if !writing {
        SetWriteEvent(true);
        writing := true;
      }
    }

    /** The high-water callback is called if the mark is reached, and script is what it writes. */
    method CheckHighWater(text: string, outcome: Outcome, script: Script, remaining: nat,
                          ghost s: State, ghost depth: nat)
      requires LegalOutcome(text, outcome) && LegalScript(script)
      requires Represents(TakeAtOnce(s, text, outcome, depth)) && !s.aborted && !Aborts(s, outcome)
      requires remaining == |text| - TakenAtOnce(s, outcome) > 0
      modifies this`writing, this`events, this`aborted, this`calls, writeBuffer, writeBuffer.data
      ensures Represents(BeforeAppend(s, text, outcome, script, depth))
      ensures writeBuffer.data == old(writeBuffer.data) || fresh(writeBuffer.data)
      decreases script, 1
    {
      var oldLen := writeBuffer.ReadableBytes();
      if oldLen + remaining >= highWaterMark && oldLen < highWaterMark && highWater {
        ghost var called := AtCallback(s, text, outcome, depth);
        OneMoreCall(TakeAtOnce(s, text, outcome, depth).log, HighWater(depth));
        calls := calls + [HighWaterCall];
        RunCallback(script, called, depth + 1);
      }
    }

    method WriteInLoop(text: string, outcome: Outcome, script: Script, ghost s: State, ghost depth: nat)
      requires Represents(s) && !s.aborted && LegalOutcome(text, outcome) && LegalScript(script)
      modifies this`writing, this`events, this`aborted, this`calls, writeBuffer, writeBuffer.data
      ensures Represents(Written(s, text, outcome, script, depth))
      ensures writeBuffer.data == old(writeBuffer.data) || fresh(writeBuffer.data)
      decreases script, 2
    {
      var nwrote := TryDirect(text, outcome, s, depth);
      if !aborted && nwrote < |text| {
        CheckHighWater(text, outcome, script, |text| - nwrote, s, depth);
        if !aborted {
          AppendRemaining(text[nwrote..], |s.accepted| + nwrote, BeforeAppend(s, text, outcome, script, depth));
        }
      }
    }

    /** The writes of a high-water callback; each of them is a call of writeInLoop. */
    method RunCallback(script: Script, ghost s: State, ghost depth: nat)
      requires Represents(s) && LegalScript(script)
      modifies this`writing, this`events, this`aborted, this`calls, writeBuffer, writeBuffer.data
      ensures Represents(RunScript(s, script, depth))
      ensures writeBuffer.data == old(writeBuffer.data) || fresh(writeBuffer.data)
      decreases script, 0
    {
      if script.Then? && !aborted {
        WriteInLoop(script.text, script.outcome, script.inner, s, depth);
        RunCallback(script.next, Written(s, script.text, script.outcome, script.inner, depth), depth);
      }
    }

    method HandleWrite(outcome: Outcome, capacity: nat, ghost s: State)
      requires Represents(s) && !s.aborted && LegalEvent(s, outcome, capacity)
      modifies this`writing, this`events, this`calls, writeBuffer, writeBuffer.data
      ensures Represents(AfterEvent(s, outcome, capacity))
      ensures writeBuffer.data == old(writeBuffer.data) || fresh(writeBuffer.data)
    {
      if !writing {
        return;
      }
      if outcome.Wrote? && outcome.n > 0 {
        writeBuffer.RetrieveBytes(outcome.n);
        if writeBuffer.ReadableBytes() == 0 {
          SetWriteEvent(false);
          writing := false;
          if writeComplete {
            ghost var taken := s.taken + s.buffer.readable[..outcome.n];
            OneMoreCall(s.log, WriteComplete(0, |taken| == |s.accepted|));
            calls := calls + [WriteCompleteCall];
          }
          if capacity > LARGE {
            writeBuffer.ShrinkTo(0);
          }
        }
      }
    }
  }
}
