/**
 The retrying connector of src/net/TCPConnector.cpp, on the loop thread. What connect() and
 getSockError() report are parameters; a retry timer is its delay in milliseconds.
 */
module TCPConnector {

  datatype State = Disconnected | Connecting | Connected

  datatype Errno =
    | None | EISCONN | EINPROGRESS | EINTR
    | EAGAIN | EADDRINUSE | EADDRNOTAVAIL | ECONNREFUSED | ENETUNREACH
    | Other(code: int)

  const DEFAULT_RETRY_DELAY_MS: nat := 500
  const LONGEST_DELAY_MS: nat := 30000

  /**
   hasHandler says whether the connector owns a socket handler, watching whether that handler is
   enabled with the connector's callbacks. The last four fields are history: the connect() calls,
   those that have failed, the delay of every retry timer, and how often the success and the
   failure callback were due.
   */
  datatype Connector = Connector(
    state: State, hasHandler: bool, watching: bool,
    constantDelay: bool, retryDelayMs: int, maxRetries: int, currentRetries: nat, timers: seq<int>,
    attempts: nat, failedAttempts: nat, delays: seq<int>, successes: nat, failures: nat)

  predicate InProgress(errno: Errno)
  {
    errno.None? || errno.EISCONN? || errno.EINPROGRESS? || errno.EINTR?
  }

  predicate Retryable(errno: Errno)
  {
    errno.EAGAIN? || errno.EADDRINUSE? || errno.EADDRNOTAVAIL? || errno.ECONNREFUSED? || errno.ENETUNREACH?
  }

  function Min(x: int, y: int): int { if x < y then x else y }

  function Stop(c: Connector): Connector
  {
    if c.state.Disconnected? then c
    else
      c.(state := Disconnected, hasHandler := true,
         watching := if c.state.Connected? && !c.hasHandler then c.watching else false)
  }

  predicate MayRetry(c: Connector) { c.maxRetries < 0 || c.currentRetries < c.maxRetries }

  function NextDelay(c: Connector): int
  {
    if c.constantDelay then c.retryDelayMs else Min(c.retryDelayMs * 2, LONGEST_DELAY_MS)
  }

  function Retry(c: Connector): Connector
  {
    var stopped := Stop(c);
    if MayRetry(c) then
      stopped.(currentRetries := c.currentRetries + 1, retryDelayMs := NextDelay(c),
               timers := c.timers + [NextDelay(c)], delays := c.delays + [NextDelay(c)])
    else stopped.(failures := c.failures + 1)
  }

  /** An attempt that has failed. */
  function Fail(c: Connector): Connector
  {
    Retry(c.(failedAttempts := c.failedAttempts + 1))
  }

  function HandleConnectError(c: Connector): Connector
  {
    if c.state.Connected? then c else Fail(c)
  }

  function Connect(c: Connector, errno: Errno): Connector
    requires c.state.Disconnected? && c.hasHandler
  {
    var trying := c.(state := Connecting, watching := false, attempts := c.attempts + 1);
    if InProgress(errno) then trying.(watching := true)
    else if Retryable(errno) then Fail(trying)
    else HandleConnectError(trying)
  }

  function HandleConnectWrite(c: Connector, error: int): Connector
  {
    if !c.state.Connecting? then c
    else if error != 0 then Fail(c)
    else c.(state := Connected, hasHandler := false, watching := false, successes := c.successes + 1)
  }

  function Restarted(c: Connector): Connector
  {
    Stop(c).(currentRetries := 0,
             retryDelayMs := if c.constantDelay then c.retryDelayMs else DEFAULT_RETRY_DELAY_MS)
  }

  function RetryTimer(c: Connector, k: nat, errno: Errno): Connector
    requires k < |c.timers| && (c.state.Disconnected? ==> c.hasHandler)
  {
    var fired := c.(timers := c.timers[..k] + c.timers[k + 1..]);
    if c.state.Disconnected? then Connect(fired, errno) else fired
  }

  // ---------- Runs with a single start ----------

  /** A new connector, after setRetries and, if delay is Some, setRetryConstantDelay. */
  datatype Delay = Exponential | Constant(ms: int)

  function Fresh(maxRetries: int, delay: Delay): Connector
  {
    Connector(Disconnected, true, false,
              delay.Constant?, if delay.Constant? then delay.ms else DEFAULT_RETRY_DELAY_MS, maxRetries, 0, [],
              0, 0, [], 0, 0)
  }

  datatype Step =
    | WriteEvent(error: int)        // error is what getSockError() reports
    | ErrorEvent                    // an error or a close event
    | TimerFires(k: nat, errno: Errno)

  /** Events come from the watched handler; an error may also arrive late, after success. */
  predicate Enabled(c: Connector, step: Step)
  {
    match step
    case WriteEvent(_) => c.watching
    case ErrorEvent => c.watching || c.state.Connected?
    case TimerFires(k, _) => k < |c.timers| && (c.state.Disconnected? ==> c.hasHandler)
  }

  function Apply(c: Connector, step: Step): Connector
    requires Enabled(c, step)
  {
    match step
    case WriteEvent(error) => HandleConnectWrite(c, error)
    case ErrorEvent => HandleConnectError(c)
    case TimerFires(k, errno) => RetryTimer(c, k, errno)
  }

  ghost predicate Execution(cs: seq<Connector>, steps: seq<Step>, maxRetries: int, delay: Delay, errno: Errno)
  {
    && |cs| == |steps| + 1 && cs[0] == Connect(Restarted(Fresh(maxRetries, delay)), errno)
    && forall i {:trigger steps[i]} :: 0 <= i < |steps| ==>
         Enabled(cs[i], steps[i]) && cs[i + 1] == Apply(cs[i], steps[i])
  }

  // ---------- The invariant ----------

  function Pow2(n: nat): nat { if n == 0 then 1 else 2 * Pow2(n - 1) }

  /** The delay after n retries have been scheduled. */
  function DelayAfter(delay: Delay, n: nat): int
  {
    match delay
    case Exponential => Min(DEFAULT_RETRY_DELAY_MS * Pow2(n), LONGEST_DELAY_MS)
    case Constant(ms) => ms
  }

  predicate Decided(c: Connector) { c.successes + c.failures > 0 }

  /** What a call reports through the callbacks of the connector. */
  datatype Report = Nothing | Connection | Retrying | Failure

  function ReportOf(c: Connector, c': Connector): Report
  {
    if c'.successes > c.successes then Connection
    else if c'.failures > c.failures then Failure
    else if |c'.delays| > |c.delays| then Retrying
    else Nothing
  }

  /** The connector is trying, waiting, connected, or has given up; nothing else. */
  ghost predicate InOnePhase(c: Connector)
  {
    match c.state
    case Connecting =>
      !Decided(c) && c.timers == [] && c.attempts == c.currentRetries + 1 && c.failedAttempts == c.currentRetries
    case Connected =>
      c.successes == 1 && c.failures == 0 && c.timers == [] && c.attempts == c.currentRetries + 1
      && c.failedAttempts == c.currentRetries
    case Disconnected =>
      if c.timers != [] then
        !Decided(c) && |c.timers| == 1 && c.attempts == c.failedAttempts == c.currentRetries > 0
        && c.delays != [] && c.timers[0] == c.delays[|c.delays| - 1]
      else
        c.successes == 0 && c.failures == 1 && c.attempts == c.failedAttempts == c.currentRetries + 1
        && c.currentRetries == c.maxRetries
  }

  ghost predicate DelaysFit(c: Connector, delay: Delay)
  {
    && c.constantDelay == delay.Constant? && c.retryDelayMs == DelayAfter(delay, c.currentRetries)
    && |c.delays| == c.currentRetries
    && forall k :: 0 <= k < |c.delays| ==> c.delays[k] == DelayAfter(delay, k + 1)
  }

  ghost predicate Inv(c: Connector, maxRetries: int, delay: Delay)
  {
    && c.maxRetries == maxRetries && (maxRetries >= 0 ==> c.currentRetries <= maxRetries)
    && (c.state.Connecting? <==> c.watching) && (c.state.Connected? <==> !c.hasHandler)
    && DelaysFit(c, delay) && InOnePhase(c)
  }

  /** A connector in the middle of an attempt, whether or not its handler is watched yet. */
  ghost predicate Trying(c: Connector, maxRetries: int, delay: Delay)
  {
    c.state.Connecting? && c.hasHandler && Inv(c.(watching := true), maxRetries, delay)
  }

  lemma FailKeepsInv(c: Connector, maxRetries: int, delay: Delay)
    requires Trying(c, maxRetries, delay)
    ensures Inv(Fail(c), maxRetries, delay)
  {
  }

  lemma ConnectKeepsInv(c: Connector, errno: Errno, maxRetries: int, delay: Delay)
    requires c.state.Disconnected? && c.hasHandler && !c.watching && c.timers == [] && !Decided(c)
    requires c.attempts == c.failedAttempts == c.currentRetries && DelaysFit(c, delay)
    requires c.maxRetries == maxRetries && (maxRetries >= 0 ==> c.currentRetries <= maxRetries)
    ensures Inv(Connect(c, errno), maxRetries, delay)
  {
    var trying := c.(state := Connecting, watching := false, attempts := c.attempts + 1);
    if !InProgress(errno) {
      FailKeepsInv(trying, maxRetries, delay);
    }
  }

  lemma StepKeepsInv(c: Connector, step: Step, maxRetries: int, delay: Delay)
    requires Inv(c, maxRetries, delay) && Enabled(c, step)
    ensures Inv(Apply(c, step), maxRetries, delay)
  {
    match step
    case TimerFires(k, errno) =>
      ConnectKeepsInv(c.(timers := c.timers[..k] + c.timers[k + 1..]), errno, maxRetries, delay);
    case _ =>
      if c.watching {
        assert c.(watching := true) == c;
        FailKeepsInv(c, maxRetries, delay);
      }
  }

  lemma {:induction false} InvAlways(
    cs: seq<Connector>, steps: seq<Step>, maxRetries: int, delay: Delay, errno: Errno, i: nat)
    requires Execution(cs, steps, maxRetries, delay, errno) && i < |cs|
    ensures Inv(cs[i], maxRetries, delay)
  {
    if i == 0 {
      ConnectKeepsInv(Restarted(Fresh(maxRetries, delay)), errno, maxRetries, delay);
    } else {
      InvAlways(cs, steps, maxRetries, delay, errno, i - 1);
      StepKeepsInv(cs[i - 1], steps[i - 1], maxRetries, delay);
    }
  }

  // ---------- What holds over whole runs ----------

  /** Main result: at most one retry timer is pending, and only while Disconnected. */
  lemma OneTimer(cs: seq<Connector>, steps: seq<Step>, maxRetries: int, delay: Delay, errno: Errno, i: nat)
    requires Execution(cs, steps, maxRetries, delay, errno) && i < |cs|
    ensures |cs[i].timers| <= 1 && (cs[i].timers != [] ==> cs[i].state.Disconnected?)
  {
    InvAlways(cs, steps, maxRetries, delay, errno, i);
  }

  /**
   Main result: with N retries there are at most N + 1 attempts; success and failure are reported
   at most once in total; and failure is reported only after N + 1 attempts have failed.
   */
  lemma Outcome(cs: seq<Connector>, steps: seq<Step>, maxRetries: int, delay: Delay, errno: Errno, i: nat)
    requires Execution(cs, steps, maxRetries, delay, errno) && i < |cs|
    ensures maxRetries >= 0 ==> cs[i].attempts <= maxRetries + 1
    ensures cs[i].successes + cs[i].failures <= 1
    ensures cs[i].failures == 1 ==> maxRetries >= 0 && cs[i].failedAttempts == cs[i].attempts == maxRetries + 1
    ensures cs[i].successes == 1 <==> cs[i].state.Connected?
  {
    InvAlways(cs, steps, maxRetries, delay, errno, i);
  }

  /** Main result: the k-th retry waits min(500 * 2^k, 30000) milliseconds, or the constant delay. */
  lemma Backoff(cs: seq<Connector>, steps: seq<Step>, maxRetries: int, delay: Delay, errno: Errno, i: nat, k: nat)
    requires Execution(cs, steps, maxRetries, delay, errno) && i < |cs| && 1 <= k <= |cs[i].delays|
    ensures delay.Exponential? ==> cs[i].delays[k - 1] == Min(500 * Pow2(k), 30000)
    ensures delay.Constant? ==> cs[i].delays[k - 1] == delay.ms
    ensures |cs[i].timers| == 1 ==> cs[i].timers[0] == cs[i].delays[|cs[i].delays| - 1]
  {
    InvAlways(cs, steps, maxRetries, delay, errno, i);
  }

  /** Main result: until the outcome is reported the connector waits for an event or for its timer. */
  lemma NeverStuck(cs: seq<Connector>, steps: seq<Step>, maxRetries: int, delay: Delay, errno: Errno, i: nat)
    requires Execution(cs, steps, maxRetries, delay, errno) && i < |cs|
    ensures !Decided(cs[i]) <==> cs[i].watching || cs[i].timers != []
    ensures cs[i].timers != [] ==> forall e :: Enabled(cs[i], TimerFires(0, e))
  {
    InvAlways(cs, steps, maxRetries, delay, errno, i);
  }

  /** The steps left at most, with a limit on retries: two for each retry, and the first attempt. */
  function StepsLeft(c: Connector): int
  {
    if Decided(c) then 0
    else 2 * (c.maxRetries - c.currentRetries) + (if c.state.Connecting? then 1 else 2)
  }

  /** So with a limit every step of an undecided connector brings the outcome closer. */
  lemma OutcomeComesCloser(c: Connector, step: Step, maxRetries: nat, delay: Delay)
    requires Inv(c, maxRetries, delay) && Enabled(c, step) && !Decided(c)
    ensures 0 <= StepsLeft(Apply(c, step)) < StepsLeft(c)
  {
  }

  /**
   A failed attempt is final if and only if the limit is not negative and used up. So a negative
   limit retries for ever, and zero does not retry at all.
   */
  lemma FinalIffLimitReached(c: Connector)
    ensures Fail(c).failures > c.failures <==> 0 <= c.maxRetries <= c.currentRetries
    ensures |Fail(c).timers| > |c.timers| <==> !(0 <= c.maxRetries <= c.currentRetries)
  {
  }

  /** In a run with a single start: failure is reported at the first failed attempt iff the limit is zero. */
  lemma FirstFailureFinalIffZero(maxRetries: int, delay: Delay, errno: Errno)
    requires !InProgress(errno)
    ensures Connect(Restarted(Fresh(maxRetries, delay)), errno).failures == 1 <==> maxRetries == 0
    ensures |Connect(Restarted(Fresh(maxRetries, delay)), errno).timers| == 1 <==> maxRetries != 0
  {
    FinalIffLimitReached(Restarted(Fresh(maxRetries, delay)).(state := Connecting));
  }

  // ---------- What the attempts come to ----------

  /**
   stop(): the attempt or connection ends and a new socket is at hand; a handler given away with a
   connection is left alone, any other is disabled, and a retry timer already set stays set.
   */
  lemma StopTold(c: Connector)
    requires !c.state.Disconnected?
    ensures var s := Stop(c);
            && s.state == Disconnected && s.hasHandler && s.timers == c.timers
            && s.watching == (c.watching && c.state == Connected && !c.hasHandler)
            && s.currentRetries == c.currentRetries && s.retryDelayMs == c.retryDelayMs && s.attempts == c.attempts
            && s.failedAttempts == c.failedAttempts && s.successes == c.successes && s.failures == c.failures
  {
  }

  /** start(): whatever happened before, the count of retries and the growing delay begin anew. */
  lemma StartTold(c: Connector)
    ensures var r := Restarted(c);
            && r.state == Disconnected && (!c.state.Disconnected? ==> r.hasHandler)
            && r.currentRetries == 0 && r.maxRetries == c.maxRetries && r.timers == c.timers
            && r.constantDelay == c.constantDelay && r.retryDelayMs == (if c.constantDelay then c.retryDelayMs else 500)
            && r.attempts == c.attempts && r.successes == c.successes && r.failures == c.failures
  {
  }

  /** One more attempt of c has failed: it is over, and a retry timer or the report of failure follows. */
  predicate AttemptFailed(c: Connector, c': Connector)
  {
    && c'.state == Disconnected && c'.hasHandler && !c'.watching && c'.successes == c.successes
    && c'.failedAttempts == c.failedAttempts + 1
    && if 0 <= c.maxRetries <= c.currentRetries then c'.failures == c.failures + 1 && c'.timers == c.timers
       else c'.failures == c.failures && |c'.timers| == |c.timers| + 1 && c'.timers[..|c.timers|] == c.timers
  }

  /** connect(): these four values of errno leave the attempt in progress, and every other one ends it. */
  lemma ConnectTold(c: Connector, errno: Errno)
    requires c.state.Disconnected? && c.hasHandler
    ensures var c' := Connect(c, errno);
            && c'.attempts == c.attempts + 1
            && (errno == None || errno == EISCONN || errno == EINPROGRESS || errno == EINTR ==>
                  && c'.state == Connecting && c'.watching && c'.hasHandler && c'.timers == c.timers
                  && c'.successes == c.successes && c'.failures == c.failures && c'.failedAttempts == c.failedAttempts)
            && (errno != None && errno != EISCONN && errno != EINPROGRESS && errno != EINTR ==> AttemptFailed(c, c'))
  {
  }

  /** handleConnectWrite() while connecting: connected if and only if the socket reports no error. */
  lemma WriteEventTold(c: Connector, error: int)
    requires c.state.Connecting?
    ensures var c' := HandleConnectWrite(c, error);
            && (error != 0 ==> AttemptFailed(c, c'))
            && (error == 0 ==>
                  && c'.state == Connected && !c'.hasHandler && !c'.watching && c'.successes == c.successes + 1
                  && c'.failures == c.failures && c'.timers == c.timers && c'.failedAttempts == c.failedAttempts)
  {
  }

  /** The step ends an attempt that was under way, or begins one that ends at once. */
  predicate FailsAnAttempt(c: Connector, step: Step)
  {
    match step
    case WriteEvent(error) => error != 0
    case ErrorEvent => !c.state.Connected?
    case TimerFires(_, errno) => errno != None && errno != EISCONN && errno != EINPROGRESS && errno != EINTR
  }

  /** The attempts among the first i steps that have failed. */
  function FailedIn(cs: seq<Connector>, steps: seq<Step>, i: nat): nat
    requires i <= |steps| < |cs|
  {
    if i == 0 then 0
    else FailedIn(cs, steps, i - 1) + if FailsAnAttempt(cs[i - 1], steps[i - 1]) then 1 else 0
  }

  lemma StepTold(c: Connector, step: Step, maxRetries: int, delay: Delay)
    requires Inv(c, maxRetries, delay) && Enabled(c, step)
    ensures Apply(c, step).state.Connected? <==> c.state.Connected? || step == WriteEvent(0)
    ensures Apply(c, step).failedAttempts == c.failedAttempts + if FailsAnAttempt(c, step) then 1 else 0
  {
    match step
    case WriteEvent(error) => WriteEventTold(c, error);
    case ErrorEvent =>
    case TimerFires(k, errno) => ConnectTold(c.(timers := c.timers[..k] + c.timers[k + 1..]), errno);
  }

  lemma StepInRun(cs: seq<Connector>, steps: seq<Step>, maxRetries: int, delay: Delay, errno: Errno, i: nat)
    requires Execution(cs, steps, maxRetries, delay, errno) && i < |steps|
    ensures cs[i + 1].state.Connected? <==> cs[i].state.Connected? || steps[i] == WriteEvent(0)
    ensures cs[i + 1].failedAttempts == cs[i].failedAttempts + if FailsAnAttempt(cs[i], steps[i]) then 1 else 0
  {
    InvAlways(cs, steps, maxRetries, delay, errno, i);
    StepTold(cs[i], steps[i], maxRetries, delay);
  }

  lemma FirstAttempt(maxRetries: int, delay: Delay, errno: Errno)
    ensures var c := Connect(Restarted(Fresh(maxRetries, delay)), errno);
            && !c.state.Connected? && c.attempts == 1
            && c.failedAttempts ==
                 if errno == None || errno == EISCONN || errno == EINPROGRESS || errno == EINTR then 0 else 1
  {
    ConnectTold(Restarted(Fresh(maxRetries, delay)), errno);
  }

  /** Main result: the connector is connected iff some write event found no error on the socket. */
  lemma {:induction false} ConnectedIffNoError(
    cs: seq<Connector>, steps: seq<Step>, maxRetries: int, delay: Delay, errno: Errno, i: nat)
    requires Execution(cs, steps, maxRetries, delay, errno) && i < |cs|
    ensures cs[i].state.Connected? <==> exists j :: 0 <= j < i && steps[j] == WriteEvent(0)
  {
    if i == 0 {
      FirstAttempt(maxRetries, delay, errno);
    } else {
      ConnectedIffNoError(cs, steps, maxRetries, delay, errno, i - 1);
      StepInRun(cs, steps, maxRetries, delay, errno, i - 1);
    }
  }

  /**
   Main result: the attempts that have failed are the ones that connect() itself, a write event with
   an error on the socket, or an error event before the connection was made has ended.
   */
  lemma {:induction false} FailuresCounted(
    cs: seq<Connector>, steps: seq<Step>, maxRetries: int, delay: Delay, errno: Errno, i: nat)
    requires Execution(cs, steps, maxRetries, delay, errno) && i < |cs|
    ensures cs[i].failedAttempts ==
            FailedIn(cs, steps, i)
            + if errno == None || errno == EISCONN || errno == EINPROGRESS || errno == EINTR then 0 else 1
  {
    if i == 0 {
      FirstAttempt(maxRetries, delay, errno);
    } else {
      FailuresCounted(cs, steps, maxRetries, delay, errno, i - 1);
      StepInRun(cs, steps, maxRetries, delay, errno, i - 1);
    }
  }

  // ---------- The connector ----------

  class TCPConnector {
    var state: State
    var hasHandler: bool
    var watching: bool
    var constantDelay: bool
    var retryDelayMs: int
    var maxRetries: int
    var currentRetries: nat
    var timers: seq<int>

    ghost predicate Represents(c: Connector)
      reads this
    {
      && state == c.state && hasHandler == c.hasHandler && watching == c.watching
      && constantDelay == c.constantDelay && retryDelayMs == c.retryDelayMs
      && maxRetries == c.maxRetries && currentRetries == c.currentRetries && timers == c.timers
    }

    constructor ()
      ensures Represents(Fresh(0, Exponential))
    {
      state, hasHandler, watching := Disconnected, true, false;
      constantDelay, retryDelayMs, maxRetries, currentRetries, timers := false, DEFAULT_RETRY_DELAY_MS, 0, 0, [];
    }

    method SetRetryConstantDelay(delayMs: int, ghost c: Connector)
      requires Represents(c)
      modifies this
      ensures Represents(c.(retryDelayMs := delayMs, constantDelay := true))
    {
      retryDelayMs := delayMs;
      constantDelay := true;
    }

    method SetRetries(retries: int, ghost c: Connector)
      requires Represents(c)
      modifies this
      ensures Represents(c.(maxRetries := retries))
    {
      maxRetries := retries;
    }

    /** A success has given its handler away; anything else is closed. Either way a new socket follows. */
    method StopConnecting(ghost c: Connector)
      requires Represents(c)
      modifies this
      ensures Represents(Stop(c))
    {
      if state.Disconnected? {
        return;
      }
      if !(state.Connected? && !hasHandler) {
        watching := false;
        hasHandler := false;
      }
      state := Disconnected;
      hasHandler := true;
    }

    method RetryLater(ghost c: Connector) returns (report: Report)
      requires Represents(c)
      modifies this
      ensures Represents(Retry(c)) && report == ReportOf(c, Retry(c))
    {
      StopConnecting(c);
      if maxRetries < 0 || currentRetries < maxRetries {
        currentRetries := currentRetries + 1;
        if !constantDelay {
          retryDelayMs := Min(retryDelayMs * 2, LONGEST_DELAY_MS);
        }
        timers := timers + [retryDelayMs];
        report := Retrying;
      } else {
        report := Failure;
      }
    }

    method ConnectError(ghost c: Connector) returns (report: Report)
      requires Represents(c)
      modifies this
      ensures Represents(HandleConnectError(c)) && report == ReportOf(c, HandleConnectError(c))
    {
      if state.Connected? {
        return Nothing;
      }
      report := RetryLater(c.(failedAttempts := c.failedAttempts + 1));
    }

    method ConnectWrite(error: int, ghost c: Connector) returns (report: Report)
      requires Represents(c)
      modifies this
      ensures Represents(HandleConnectWrite(c, error)) && report == ReportOf(c, HandleConnectWrite(c, error))
      ensures report.Connection? <==> old(state).Connecting? && error == 0
    {
      if !state.Connecting? {
        return Nothing;
      }
      if error != 0 {
        report := RetryLater(c.(failedAttempts := c.failedAttempts + 1));
      } else {
        state := Connected;
        watching := false;
        hasHandler := false;
        report := Connection;
      }
    }

    method TryConnect(errno: Errno, ghost c: Connector) returns (report: Report)
      requires Represents(c) && c.state.Disconnected? && c.hasHandler
      modifies this
      ensures Represents(Connect(c, errno)) && report == ReportOf(c, Connect(c, errno))
      ensures report.Nothing? <==> errno == None || errno == EISCONN || errno == EINPROGRESS || errno == EINTR
    {
      watching := false;
      state := Connecting;
      ghost var trying := c.(state := Connecting, watching := false, attempts := c.attempts + 1);
      report := Nothing;
      if InProgress(errno) {
        watching := true;
      } else if Retryable(errno) {
        report := RetryLater(trying.(failedAttempts := trying.failedAttempts + 1));
      } else {
        report := ConnectError(trying);
      }
    }

    method Start(errno: Errno, ghost c: Connector) returns (report: Report)
      requires Represents(c) && (c.state.Disconnected? ==> c.hasHandler)
      modifies this
      ensures Represents(Connect(Restarted(c), errno)) && report == ReportOf(c, Connect(Restarted(c), errno))
    {
      if !state.Disconnected? {
        StopConnecting(c);
      }
      currentRetries := 0;
      if !constantDelay {
        retryDelayMs := DEFAULT_RETRY_DELAY_MS;
      }
      report := TryConnect(errno, Restarted(c));
    }

    method TimerExpires(k: nat, errno: Errno, ghost c: Connector) returns (report: Report)
      requires Represents(c) && Enabled(c, TimerFires(k, errno))
      modifies this
      ensures Represents(RetryTimer(c, k, errno)) && report == ReportOf(c, RetryTimer(c, k, errno))
    {
      report := Nothing;
      timers := timers[..k] + timers[k + 1..];
      if state.Disconnected? {
        report := TryConnect(errno, c.(timers := c.timers[..k] + c.timers[k + 1..]));
      }
    }
  }
}
