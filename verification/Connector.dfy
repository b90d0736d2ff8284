/** Non-blocking connect with back-off: wf_connector.h and wf_connector.cc. */
module Connectors {
  import opened Strings
  import opened PollPollers

  const INIT_RETRY_DELAY_MS: nat := 500
  const MAX_RETRY_DELAY_MS: nat := 30000

  datatype Phase = Disconnected | Connecting | Connected

  /** errno after connect(), Done for none; Other for any the source does not name. */
  datatype Errno =
    | Done | EINPROGRESS | EINTR | EISCONN
    | EAGAIN | EADDRINUSE | EADDRNOTAVAIL | ECONNREFUSED | ENETUNREACH
    | Other

  /** What a connector queues in its loop. */
  datatype Task = ResetTask | StopTask

  /**
   * A connector, what it has in its loop, and what became of its sockets. A pass of the loop dispatches timers and
   * channels and then runs a batch of tasks: `running` tells the batch from the dispatch, `batch` is what is left of
   * it, `queue` waits for the next one. `ripe` counts the retry timers that may fire, `young` those set in this pass.
   * Sockets are numbered as they are made. `delays` lists the delays of the retries scheduled since construction or
   * restart.
   */
  datatype State = State(
    connect: bool, phase: Phase, channel: Option<nat>, delay: nat,
    queue: seq<Task>, batch: seq<Task>, running: bool, ripe: nat, young: nat,
    made: nat, handed: seq<nat>, closed: seq<nat>, delays: seq<nat>)

  const INITIAL: State :=
    State(false, Disconnected, None, INIT_RETRY_DELAY_MS, [], [], false, 0, 0, 0, [], [], [])

  function Min(a: nat, b: nat): nat {
    if a <= b then a else b
  }

  // ---- The methods as functions ----

  function Closed(s: State, fd: nat): State {
    s.(closed := s.closed + [fd])
  }

  function Retried(s: State, fd: nat): State {
    var c := Closed(s, fd).(phase := Disconnected);
    if !s.connect then c
    else c.(young := s.young + 1, delays := s.delays + [s.delay],
            delay := Min(s.delay * 2, MAX_RETRY_DELAY_MS))
  }

  function ChannelRemoved(s: State): State {
    s.(queue := s.queue + [ResetTask])
  }

  /** connect() is under way or done, so connecting() is called. */
  predicate Proceeds(errno: Errno) {
    errno == Done || errno == EINPROGRESS || errno == EINTR || errno == EISCONN
  }

  function ConnectedTo(s: State, errno: Errno): State {
    var fd, t := s.made, s.(made := s.made + 1);
    match errno
    case Done | EINPROGRESS | EINTR | EISCONN => t.(phase := Connecting, channel := Some(fd))
    case EAGAIN | EADDRINUSE | EADDRNOTAVAIL | ECONNREFUSED | ENETUNREACH => Retried(t, fd)
    case Other => Closed(t, fd)
  }

  function StartedInLoop(s: State, errno: Errno): State {
    if s.connect then ConnectedTo(s, errno) else s
  }

  function ErrorHandled(s: State): State {
    if s.phase == Connecting && s.channel.Some? then Retried(ChannelRemoved(s), s.channel.value) else s
  }

  function WriteHandled(s: State, soError: bool): State {
    if s.phase == Connecting && s.channel.Some? then
      var fd, t := s.channel.value, ChannelRemoved(s);
      if soError then Retried(t, fd)
      else
        var u := t.(phase := Connected);
        if s.connect then u.(handed := u.handed + [fd]) else Closed(u, fd)
    else s
  }

  function StoppedInLoop(s: State): State {
    if s.phase == Connecting && s.channel.Some?
    then Retried(ChannelRemoved(s.(phase := Disconnected)), s.channel.value) else s
  }

  // ---- Runs ----

  /**
   * What can happen to a connector on its loop: calls from callbacks and functors, the retry timer, the channel's
   * events, and the loop going through its pass. errno and soError are the kernel's answers.
   */
  datatype Step =
    | Start(errno: Errno)
    | Restart(errno: Errno)
    | Stop
    | FireTimer(errno: Errno)
    | HandleEvent(error: bool, writable: bool, soError: bool)
    | BeginBatch
    | RunTask
    | EndPass

  /** Nothing of the connector waits in the loop: no task and no retry. */
  predicate Free(s: State) {
    s.queue == [] && s.batch == [] && s.ripe == 0 && s.young == 0
  }

  /**
   * start waits for a disconnected connector and restart for one that is not connecting, with nothing of it in the
   * loop. Timers and events are dispatched between batches; a timer fires in a later pass than the one that set it,
   * and events come for a registered channel.
   */
  ghost predicate Enabled(s: State, a: Step) {
    match a
    case Start(_) => s.phase == Disconnected && Free(s)
    case Restart(_) => s.phase != Connecting && Free(s)
    case Stop => true
    case FireTimer(_) => !s.running && s.ripe > 0
    case HandleEvent(_, _, _) => !s.running && s.channel.Some? && ResetTask !in s.queue
    case BeginBatch => !s.running
    case RunTask => s.running && s.batch != []
    case EndPass => s.running && s.batch == []
  }

  function Next(s: State, a: Step): State
    requires a.RunTask? ==> s.batch != []
    requires a.FireTimer? ==> s.ripe > 0
  {
    match a
    case Start(errno) => StartedInLoop(s.(connect := true), errno)
    case Restart(errno) =>
      StartedInLoop(s.(phase := Disconnected, delay := INIT_RETRY_DELAY_MS, delays := [], connect := true), errno)
    case Stop => s.(connect := false, queue := s.queue + [StopTask])
    case FireTimer(errno) => StartedInLoop(s.(ripe := s.ripe - 1), errno)
    case HandleEvent(error, writable, soError) =>
      var t := if error then ErrorHandled(s) else s;
      if writable then WriteHandled(t, soError) else t
    case BeginBatch => s.(running := true, batch := s.queue, queue := [])
    case RunTask =>
      var t := s.(batch := s.batch[1..]);
      (match s.batch[0]
       case ResetTask => t.(channel := None)
       case StopTask => StoppedInLoop(t))
    case EndPass => s.(running := false, ripe := s.ripe + s.young, young := 0)
  }

  /** The source's assertions in the step: startInLoop, connecting, handlewrite, and a channel to remove. */
  ghost predicate AssertionsHold(s: State, a: Step) {
    match a
    case Start(errno) => s.phase == Disconnected && (Proceeds(errno) ==> s.channel == None)
    case Restart(errno) => Proceeds(errno) ==> s.channel == None
    case FireTimer(errno) =>
      s.ripe > 0 && s.phase == Disconnected && (s.connect && Proceeds(errno) ==> s.channel == None)
    case HandleEvent(error, writable, _) =>
      s.channel.Some? && (writable ==> (if error then ErrorHandled(s) else s).phase != Connected)
    case RunTask => s.batch != [] && (s.batch[0] == StopTask && s.phase == Connecting ==> s.channel.Some?)
    case _ => true
  }

  ghost predicate LegalRun(s: State, run: seq<Step>)
    decreases |run|
  {
    run != [] ==> Enabled(s, run[0]) && LegalRun(Next(s, run[0]), run[1..])
  }

  function After(s: State, run: seq<Step>): State
    requires LegalRun(s, run)
    decreases |run|
  {
    if run == [] then s else After(Next(s, run[0]), run[1..])
  }

  // ---- The channel ----

  ghost predicate AtMostOneReset(tasks: seq<Task>) {
    forall i, j :: 0 <= i < j < |tasks| ==> tasks[i] == StopTask || tasks[j] == StopTask
  }

  ghost predicate Waits(s: State, t: Task) {
    t in s.batch || t in s.queue
  }

  /**
   * While connecting there is a channel and no retry; otherwise there is a channel just as long as its reset waits.
   * At most one retry is pending, only when disconnected, and any reset runs before it can fire. While a stop waits
   * nothing has started again.
   */
  ghost predicate ChannelTracked(s: State) {
    && (s.running || s.batch == [])
    && (s.phase == Connecting ==> s.channel.Some? && !Waits(s, ResetTask) && s.ripe + s.young == 0)
    && (s.phase != Connecting ==> (s.channel.Some? <==> Waits(s, ResetTask)))
    && AtMostOneReset(s.batch) && AtMostOneReset(s.queue) && !(ResetTask in s.batch && ResetTask in s.queue)
    && s.ripe + s.young <= 1 && (s.ripe + s.young > 0 ==> s.phase == Disconnected)
    && (s.ripe + s.young > 0 && ResetTask in s.queue ==> !s.running && s.ripe == 0)
    && (Waits(s, StopTask) ==> !s.connect)
  }

  lemma RemovalTracked(s: State, fd: nat)
    requires ChannelTracked(s) && s.phase == Connecting && (s.connect ==> !s.running)
    ensures ChannelTracked(Retried(ChannelRemoved(s.(phase := Disconnected)), fd))
    ensures ChannelTracked(ChannelRemoved(s).(phase := Connected))
  {
  }

  lemma BatchHead(s: State)
    requires ChannelTracked(s) && s.batch != []
    ensures var t := s.(batch := s.batch[1..]);
            && AtMostOneReset(t.batch) && (forall k :: k in t.batch ==> k in s.batch)
            && if s.batch[0] == StopTask then !s.connect && (ResetTask in t.batch <==> ResetTask in s.batch)
               else ResetTask !in t.batch && ResetTask !in t.queue
  {
    assert s.batch == [s.batch[0]] + s.batch[1..];
  }

  lemma TaskTracked(s: State)
    requires ChannelTracked(s) && Enabled(s, RunTask)
    ensures AssertionsHold(s, RunTask) && ChannelTracked(Next(s, RunTask))
  {
    BatchHead(s);
    var t := s.(batch := s.batch[1..]);
    if s.batch[0] == StopTask && s.phase == Connecting {
      RemovalTracked(t, t.channel.value);
    }
  }

  lemma ConnectTracked(s: State, errno: Errno)
    requires ChannelTracked(s) && s.phase == Disconnected && s.connect && s.channel == None
    requires s.ripe + s.young == 0 && !Waits(s, StopTask)
    ensures ChannelTracked(ConnectedTo(s, errno))
  {
  }

  lemma TimerTracked(s: State, errno: Errno)
    requires ChannelTracked(s) && Enabled(s, FireTimer(errno))
    ensures AssertionsHold(s, FireTimer(errno)) && ChannelTracked(Next(s, FireTimer(errno)))
  {
    if s.connect {
      ConnectTracked(s.(ripe := s.ripe - 1), errno);
    }
  }

  lemma EventTracked(s: State, error: bool, writable: bool, soError: bool)
    requires ChannelTracked(s) && s.phase == Connecting && !s.running
    ensures AssertionsHold(s, HandleEvent(error, writable, soError))
    ensures ChannelTracked(Next(s, HandleEvent(error, writable, soError)))
  {
    RemovalTracked(s, s.channel.value);
  }

  lemma StepTracked(s: State, a: Step)
    requires ChannelTracked(s) && Enabled(s, a)
    ensures AssertionsHold(s, a) && ChannelTracked(Next(s, a))
  {
    match a {
      case RunTask =>
        TaskTracked(s);
      case HandleEvent(error, writable, soError) =>
        EventTracked(s, error, writable, soError);
      case FireTimer(errno) =>
        TimerTracked(s, errno);
      case Start(errno) =>
        ConnectTracked(s.(connect := true), errno);
      case Restart(errno) =>
        ConnectTracked(
          s.(phase := Disconnected, delay := INIT_RETRY_DELAY_MS, delays := [], connect := true), errno);
      case _ =>
    }
  }

  /** In every run each of the source's assertions holds when it is reached. */
  lemma {:induction false} AssertionsNeverFail(s: State, run: seq<Step>, a: Step)
    requires ChannelTracked(s) && LegalRun(s, run) && Enabled(After(s, run), a)
    ensures ChannelTracked(After(s, run)) && AssertionsHold(After(s, run), a)
    decreases |run|
  {
    if run == [] {
      StepTracked(s, a);
    } else {
      StepTracked(s, run[0]);
      AssertionsNeverFail(Next(s, run[0]), run[1..], a);
    }
  }

  // ---- When start and restart may be called ----

  /** Callers who keep to Enabled from here on can still run into a failing assertion. */
  ghost predicate MayFail(s: State) {
    exists run, a :: LegalRun(s, run) && Enabled(After(s, run), a) && !AssertionsHold(After(s, run), a)
  }

  lemma FailsNow(s: State, a: Step)
    requires Enabled(s, a) && !AssertionsHold(s, a)
    ensures MayFail(s)
  {
    assert LegalRun(s, []) && After(s, []) == s;
  }

  lemma FailsLater(s: State, a: Step)
    requires Enabled(s, a) && MayFail(Next(s, a))
    ensures MayFail(s)
  {
    var t := Next(s, a);
    var run, b :| LegalRun(t, run) && Enabled(After(t, run), b) && !AssertionsHold(After(t, run), b);
    assert ([a] + run)[1..] == run;
    assert LegalRun(s, [a] + run) && After(s, [a] + run) == After(t, run);
  }

  /** A channel whose reset is not in this batch, and a retry that comes before the next one. */
  ghost predicate ResetTooLate(s: State) {
    && s.connect && s.phase == Disconnected && s.channel.Some?
    && s.running && ResetTask !in s.batch && s.ripe + s.young > 0
  }

  /** The retry finds the channel still there. */
  lemma {:induction false} ResetTooLateFails(s: State)
    requires ResetTooLate(s)
    ensures MayFail(s)
    decreases |s.batch|
  {
    if s.batch == [] {
      FailsNow(Next(s, EndPass), FireTimer(EINPROGRESS));
      FailsLater(s, EndPass);
    } else {
      assert s.batch[0] == StopTask;
      ResetTooLateFails(Next(s, RunTask));
      FailsLater(s, RunTask);
    }
  }

  /** An attempt under way beside a retry, or beside a stop from before it. */
  ghost predicate Doomed(s: State) {
    && s.connect && s.phase == Connecting && s.channel.Some? && !Waits(s, ResetTask)
    && (s.running || s.batch == [])
    && (s.ripe + s.young > 0 || Waits(s, StopTask))
  }

  /** The stop ends the attempt inside a batch and, as connect_ is set again, schedules a retry. */
  lemma DoomedByStop(s: State)
    requires Doomed(s) && s.running && s.batch != []
    ensures MayFail(s)
  {
    assert s.batch[0] == StopTask;
    ResetTooLateFails(Next(s, RunTask));
    FailsLater(s, RunTask);
  }

  lemma DoomedAtDispatch(s: State)
    requires Doomed(s) && !s.running
    ensures MayFail(s)
  {
    if s.ripe > 0 {
      FailsNow(s, FireTimer(Done));
    } else {
      var t := Next(s, BeginBatch);
      if s.queue != [] {
        DoomedByStop(t);
      } else {
        FailsNow(Next(t, EndPass), FireTimer(Done));
        FailsLater(t, EndPass);
      }
      FailsLater(s, BeginBatch);
    }
  }

  lemma DoomedFails(s: State)
    requires Doomed(s)
    ensures MayFail(s)
  {
    if !s.running {
      DoomedAtDispatch(s);
    } else if s.batch != [] {
      DoomedByStop(s);
    } else {
      DoomedAtDispatch(Next(s, EndPass));
      FailsLater(s, EndPass);
    }
  }

  lemma TrackedNeverFails(s: State)
    requires ChannelTracked(s)
    ensures !MayFail(s)
  {
    forall run, b | LegalRun(s, run) && Enabled(After(s, run), b) ensures AssertionsHold(After(s, run), b) {
      AssertionsNeverFail(s, run, b);
    }
  }

  /** Whatever connect() answers, the call meets its assertions and leads to none that can fail. */
  ghost predicate StartIsSafe(s: State) {
    forall errno :: AssertionsHold(s, Start(errno)) && !MayFail(Next(s, Start(errno)))
  }

  ghost predicate RestartIsSafe(s: State) {
    forall errno :: AssertionsHold(s, Restart(errno)) && !MayFail(Next(s, Restart(errno)))
  }

  /** start is safe exactly when disconnected, with no task and no retry of the connector left in the loop. */
  lemma StartIsSafeExactly(s: State)
    requires ChannelTracked(s)
    ensures StartIsSafe(s) <==> s.phase == Disconnected && Free(s)
  {
    if s.phase == Disconnected && Free(s) {
      forall errno ensures AssertionsHold(s, Start(errno)) && !MayFail(Next(s, Start(errno))) {
        StepTracked(s, Start(errno));
        TrackedNeverFails(Next(s, Start(errno)));
      }
    } else if AssertionsHold(s, Start(EINPROGRESS)) {
      SomethingWaits(s);
      DoomedFails(Next(s, Start(EINPROGRESS)));
    }
  }

  /** restart is safe exactly when not connecting, with the same. */
  lemma RestartIsSafeExactly(s: State)
    requires ChannelTracked(s)
    ensures RestartIsSafe(s) <==> s.phase != Connecting && Free(s)
  {
    if s.phase != Connecting && Free(s) {
      forall errno ensures AssertionsHold(s, Restart(errno)) && !MayFail(Next(s, Restart(errno))) {
        StepTracked(s, Restart(errno));
        TrackedNeverFails(Next(s, Restart(errno)));
      }
    } else if AssertionsHold(s, Restart(EINPROGRESS)) {
      SomethingWaits(s);
      DoomedFails(Next(s, Restart(EINPROGRESS)));
    }
  }

  lemma SomethingWaits(s: State)
    requires !Free(s) && !Waits(s, ResetTask)
    ensures s.ripe + s.young > 0 || Waits(s, StopTask)
  {
    assert s.batch != [] ==> s.batch[0] == StopTask || s.batch[0] == ResetTask;
    assert s.queue != [] ==> s.queue[0] == StopTask || s.queue[0] == ResetTask;
  }

  lemma Ahead(s: State, a: Step, rest: seq<Step>)
    requires Enabled(s, a) && LegalRun(Next(s, a), rest)
    ensures LegalRun(s, [a] + rest) && After(s, [a] + rest) == After(Next(s, a), rest)
  {
    assert ([a] + rest)[1..] == rest;
  }

  /** A pass whose batch is one stop. */
  lemma StopPass(s: State) returns (run: seq<Step>)
    requires !s.running && s.batch == [] && s.queue == [StopTask]
    ensures run == [BeginBatch, RunTask, EndPass] && LegalRun(s, run)
    ensures var t := StoppedInLoop(s.(running := true, queue := []));
            After(s, run) == t.(running := false, ripe := t.ripe + t.young, young := 0)
  {
    var stopping := Next(s, BeginBatch);
    assert [StopTask][1..] == [];
    var stopped := Next(stopping, RunTask);
    assert LegalRun(Next(stopped, EndPass), []);
    Ahead(stopped, EndPass, []);
    Ahead(stopping, RunTask, [EndPass]);
    Ahead(s, BeginBatch, [RunTask] + [EndPass]);
    run := [BeginBatch] + ([RunTask] + [EndPass]);
  }

  /** A stop and a start at once: the stop's task ends the new attempt, and the retry comes before the reset. */
  lemma StartOverQueuedStop(s: State) returns (run: seq<Step>)
    requires ChannelTracked(s) && Free(s) && s.phase == Disconnected && !s.running
    ensures run == [BeginBatch, RunTask, EndPass]
    ensures var stopped := Next(s, Stop);
            var started, fire := Next(stopped, Start(Done)), FireTimer(Done);
            && AssertionsHold(stopped, Start(Done)) && LegalRun(started, run)
            && After(started, run).phase == Disconnected && Enabled(After(started, run), fire)
            && !AssertionsHold(After(started, run), fire)
  {
    run := StopPass(Next(Next(s, Stop), Start(Done)));
  }

  /** A refused connect, a stop, and a start within the back-off: no assertion stops the start, but the retry fails. */
  lemma StartOverPendingRetry(s: State) returns (run: seq<Step>)
    requires ChannelTracked(s) && Free(s) && s.phase == Disconnected && !s.running
    ensures run == [Start(ECONNREFUSED), Stop, BeginBatch, RunTask, EndPass] && LegalRun(s, run)
    ensures var e, again, fire := After(s, run), Start(EINPROGRESS), FireTimer(Done);
            && e.queue == [] && e.batch == [] && AssertionsHold(e, again)
            && Enabled(Next(e, again), fire) && !AssertionsHold(Next(e, again), fire)
  {
    var refused := Next(s, Start(ECONNREFUSED));
    var rest := StopPass(Next(refused, Stop));
    Ahead(refused, Stop, rest);
    Ahead(s, Start(ECONNREFUSED), [Stop] + rest);
    run := [Start(ECONNREFUSED)] + ([Stop] + rest);
  }

  /** A start that comes after a stop's own task but before the reset that task queued meets the channel itself. */
  lemma StopThenStartTooSoon()
    ensures var run := [Start(EINPROGRESS), Stop, BeginBatch, RunTask];
            LegalRun(INITIAL, run) && After(INITIAL, run).phase == Disconnected &&
            !AssertionsHold(After(INITIAL, run), Start(Done))
  {
    var stopped := Next(Next(INITIAL, Start(EINPROGRESS)), Stop);
    assert stopped.queue == [StopTask];
  }

  // ---- The sockets ----

  ghost predicate InFlight(s: State, fd: nat) {
    s.phase == Connecting && s.channel == Some(fd)
  }

  ghost predicate Distinct(s: seq<nat>) {
    forall i, j :: 0 <= i < j < |s| ==> s[i] != s[j]
  }

  lemma DistinctAppend(s: seq<nat>, x: nat)
    requires Distinct(s) && x !in s
    ensures Distinct(s + [x])
  {
  }

  /** Every socket made is exactly one of in flight, handed over, or closed; none is handed over or closed twice. */
  ghost predicate SocketsConserved(s: State) {
    && Distinct(s.handed) && Distinct(s.closed)
    && (forall fd: nat :: fd in s.handed || fd in s.closed || InFlight(s, fd) ==> fd < s.made)
    && (forall fd :: 0 <= fd < s.made ==> InFlight(s, fd) || fd in s.handed || fd in s.closed)
    && (forall fd :: fd in s.handed ==> fd !in s.closed && !InFlight(s, fd))
    && (forall fd :: fd in s.closed ==> !InFlight(s, fd))
  }

  /** A socket in flight leaves flight by being closed, and by nothing else at once. */
  lemma LandedConserved(s: State, t: State, fd: nat)
    requires SocketsConserved(s) && InFlight(s, fd) && t.phase != Connecting && t.made == s.made
    requires (t.closed == s.closed + [fd] && t.handed == s.handed) ||
             (t.handed == s.handed + [fd] && t.closed == s.closed)
    ensures SocketsConserved(t)
  {
  }

  lemma ConnectConserved(s: State, errno: Errno)
    requires SocketsConserved(s) && s.phase != Connecting
    ensures SocketsConserved(ConnectedTo(s, errno))
  {
    var t := ConnectedTo(s, errno);
    if t.phase == Connecting {
      assert InFlight(t, s.made) && forall fd: nat :: InFlight(t, fd) ==> fd == s.made;
    } else {
      DistinctAppend(s.closed, s.made);
      assert t.closed == s.closed + [s.made] && t.handed == s.handed;
    }
    forall fd: nat | fd < t.made ensures InFlight(t, fd) || fd in t.handed || fd in t.closed {
      assert fd < s.made ==> InFlight(s, fd) || fd in s.handed || fd in s.closed;
    }
  }

  lemma SameSockets(s: State, t: State)
    requires SocketsConserved(s) && t.made == s.made && t.handed == s.handed && t.closed == s.closed
    requires forall fd: nat :: InFlight(t, fd) <==> InFlight(s, fd)
    ensures SocketsConserved(t)
  {
  }

  lemma CallConserved(s: State, t: State, errno: Errno)
    requires SocketsConserved(s) && s.phase != Connecting && t.phase != Connecting
    requires t.made == s.made && t.handed == s.handed && t.closed == s.closed
    ensures SocketsConserved(StartedInLoop(t, errno))
  {
    SameSockets(s, t);
    ConnectConserved(t, errno);
  }

  lemma EventConserved(s: State, error: bool, writable: bool, soError: bool)
    requires SocketsConserved(s) && s.phase == Connecting && s.channel.Some?
    ensures SocketsConserved(Next(s, HandleEvent(error, writable, soError)))
  {
    if error || writable {
      LandedConserved(s, Next(s, HandleEvent(error, writable, soError)), s.channel.value);
    }
  }

  lemma TaskConserved(s: State)
    requires SocketsConserved(s) && s.batch != [] && (s.batch[0] == ResetTask ==> s.phase != Connecting)
    ensures SocketsConserved(Next(s, RunTask))
  {
    if s.batch[0] == StopTask && s.phase == Connecting && s.channel.Some? {
      LandedConserved(s, Next(s, RunTask), s.channel.value);
    }
  }

  lemma StepConserved(s: State, a: Step)
    requires ChannelTracked(s) && SocketsConserved(s) && Enabled(s, a)
    ensures SocketsConserved(Next(s, a))
  {
    match a {
      case Start(errno) =>
        CallConserved(s, s.(connect := true), errno);
      case FireTimer(errno) =>
        CallConserved(s, s.(ripe := s.ripe - 1), errno);
      case Restart(errno) =>
        CallConserved(
          s, s.(phase := Disconnected, delay := INIT_RETRY_DELAY_MS, delays := [], connect := true), errno);
      case HandleEvent(error, writable, soError) =>
        EventConserved(s, error, writable, soError);
      case RunTask =>
        TaskConserved(s);
      case _ =>
        SameSockets(s, Next(s, a));
    }
  }

  /** Over every run, with both callbacks in one event and stops in between, sockets are conserved. */
  lemma {:induction false} SocketConservation(s: State, run: seq<Step>)
    requires ChannelTracked(s) && SocketsConserved(s) && LegalRun(s, run)
    ensures SocketsConserved(After(s, run))
    ensures After(s, run).phase == Connecting <==> exists fd: nat :: InFlight(After(s, run), fd)
    decreases |run|
  {
    if run == [] {
      assert s.phase == Connecting ==> InFlight(s, s.channel.value);
    } else {
      StepTracked(s, run[0]);
      StepConserved(s, run[0]);
      SocketConservation(Next(s, run[0]), run[1..]);
    }
  }

  /** After a stop no socket is made, none is handed over and no retry is scheduled, until start or restart. */
  lemma {:induction false} StopHolds(s: State, run: seq<Step>)
    requires !s.connect && LegalRun(s, run)
    requires forall a :: a in run ==> !a.Start? && !a.Restart?
    ensures var e := After(s, run);
            !e.connect && e.made == s.made && e.handed == s.handed && e.delays == s.delays
    decreases |run|
  {
    if run != [] {
      assert run[0] in run && forall a :: a in run[1..] ==> a in run;
      StopHolds(Next(s, run[0]), run[1..]);
    }
  }

  // ---- What an attempt comes to ----

  /** A retry is scheduled, after the delay that was due. */
  ghost predicate RetryScheduled(s: State, e: State) {
    e.young == s.young + 1 && e.delays == s.delays + [s.delay]
  }

  ghost predicate NoRetryScheduled(s: State, e: State) {
    e.young == s.young && e.delays == s.delays && e.delay == s.delay
  }

  /**
   * An event on the socket in flight: it is handed over exactly when it became writable without any error and nobody
   * stopped, closed without a retry when somebody did, and retried exactly when it failed and nobody did.
   */
  lemma EventOutcome(s: State, fd: nat, error: bool, writable: bool, soError: bool)
    requires ChannelTracked(s) && SocketsConserved(s) && InFlight(s, fd)
    requires Enabled(s, HandleEvent(error, writable, soError))
    ensures var e := Next(s, HandleEvent(error, writable, soError));
            var connected, failed := !error && writable && !soError, error || (writable && soError);
            && (fd in e.handed <==> connected && s.connect)
            && (fd in e.closed <==> failed || (connected && !s.connect))
            && (e.phase == Connected <==> connected) && (e.phase == Disconnected <==> failed)
            && (e.phase == Connecting <==> !connected && !failed)
            && (if failed && s.connect then RetryScheduled(s, e) else NoRetryScheduled(s, e))
  {
    assert fd !in s.handed && fd !in s.closed;
  }

  /**
   * From s to e one socket was made: in flight if connect() is under way or done, closed and retried after the errors
   * that pass, and closed for good after any other.
   */
  ghost predicate Attempted(s: State, e: State, errno: Errno) {
    && e.made == s.made + 1 && e.connect
    && (InFlight(e, s.made) <==> errno in {Done, EINPROGRESS, EINTR, EISCONN})
    && (s.made in e.closed <==> !InFlight(e, s.made))
    && (if errno in {EAGAIN, EADDRINUSE, EADDRNOTAVAIL, ECONNREFUSED, ENETUNREACH} then RetryScheduled(s, e)
        else NoRetryScheduled(s, e))
  }

  lemma AttemptOutcome(s: State, errno: Errno)
    requires SocketsConserved(s) && s.phase == Disconnected && s.connect
    ensures Attempted(s, StartedInLoop(s, errno), errno)
  {
    assert s.made !in s.closed;
  }

  /** start makes an attempt; so does a retry, unless stopped, when it does nothing. */
  lemma StartOutcome(s: State, errno: Errno)
    requires ChannelTracked(s) && SocketsConserved(s)
    ensures Enabled(s, Start(errno)) ==> Attempted(s, Next(s, Start(errno)), errno)
    ensures Enabled(s, FireTimer(errno)) ==>
              var fired := s.(ripe := s.ripe - 1);
              if s.connect then Attempted(fired, Next(s, FireTimer(errno)), errno)
              else Next(s, FireTimer(errno)) == fired
  {
    if Enabled(s, Start(errno)) {
      var t := s.(connect := true);
      SameSockets(s, t);
      AttemptOutcome(t, errno);
    }
    if Enabled(s, FireTimer(errno)) && s.connect {
      var t := s.(ripe := s.ripe - 1);
      SameSockets(s, t);
      AttemptOutcome(t, errno);
    }
  }

  /** restart makes one with the first delay due again. */
  lemma RestartOutcome(s: State, errno: Errno)
    requires SocketsConserved(s) && Enabled(s, Restart(errno))
    ensures Attempted(s.(delay := 500, delays := []), Next(s, Restart(errno)), errno)
  {
    var t := s.(phase := Disconnected, delay := 500, delays := [], connect := true);
    SameSockets(s, t);
    AttemptOutcome(t, errno);
  }

  /** A stop's own task closes the socket that is in flight by then, and schedules nothing. */
  lemma StopOutcome(s: State, fd: nat)
    requires ChannelTracked(s) && SocketsConserved(s) && InFlight(s, fd)
    requires Enabled(s, RunTask) && s.batch[0] == StopTask
    ensures var e := Next(s, RunTask);
            fd in e.closed && fd !in e.handed && e.phase == Disconnected && NoRetryScheduled(s, e)
  {
    assert fd !in s.handed && StopTask in s.batch;
  }

  // ---- The back-off ----

  function Pow2(k: nat): nat {
    if k == 0 then 1 else 2 * Pow2(k - 1)
  }

  /** The k-th delay doubles from half a second up to thirty seconds. */
  function Backoff(k: nat): nat {
    Min(500 * Pow2(k), 30000)
  }

  ghost predicate BackedOff(s: State) {
    s.delay == Backoff(|s.delays|) && forall k :: 0 <= k < |s.delays| ==> s.delays[k] == Backoff(k)
  }

  lemma RetryBackedOff(s: State, fd: nat)
    requires BackedOff(s)
    ensures BackedOff(Retried(s, fd))
  {
  }

  lemma ConnectBackedOff(s: State, errno: Errno)
    requires BackedOff(s)
    ensures BackedOff(StartedInLoop(s, errno))
  {
  }

  lemma StepBackedOff(s: State, a: Step)
    requires BackedOff(s) && Enabled(s, a)
    ensures BackedOff(Next(s, a))
  {
    match a {
      case Start(errno) =>
        ConnectBackedOff(s.(connect := true), errno);
      case FireTimer(errno) =>
        ConnectBackedOff(s.(ripe := s.ripe - 1), errno);
      case Restart(errno) =>
        ConnectBackedOff(
          s.(phase := Disconnected, delay := INIT_RETRY_DELAY_MS, delays := [], connect := true), errno);
      case HandleEvent(error, writable, soError) =>
        if s.channel.Some? {
          RetryBackedOff(ChannelRemoved(s), s.channel.value);
        }
      case RunTask =>
        var t := s.(batch := s.batch[1..]);
        if t.channel.Some? {
          RetryBackedOff(ChannelRemoved(t.(phase := Disconnected)), t.channel.value);
        }
      case _ =>
    }
  }

  /** After k retries since construction or restart the delay is min(500 * 2^k, 30000), and so was each before it. */
  lemma {:induction false} RetriesBackOff(s: State, run: seq<Step>)
    requires BackedOff(s) && LegalRun(s, run)
    ensures BackedOff(After(s, run))
    decreases |run|
  {
    if run != [] {
      StepBackedOff(s, run[0]);
      RetriesBackOff(Next(s, run[0]), run[1..]);
    }
  }

  // ---- The class ----

  /** `queue`, `batch`, `running`, `ripe` and `young` are its share of the loop; `made` numbers the sockets. */
  class Connector {
    var connect: bool
    var phase: Phase
    var channel: Channel?
    var retryDelayMs: nat
    var queue: seq<Task>
    var batch: seq<Task>
    var made: nat
    ghost var running: bool
    ghost var ripe: nat
    ghost var young: nat
    ghost var handed: seq<nat>
    ghost var closed: seq<nat>
    ghost var delays: seq<nat>

    ghost function View(): State
      reads this
    {
      State(connect, phase, Fd(), retryDelayMs, queue, batch, running, ripe, young, made, handed, closed, delays)
    }

    function Fd(): Option<nat>
      reads this
    {
      if channel == null then None else Some(channel.fd)
    }

    /** What the theorems above say of a connector whose callers have kept to the demand so far. */
    ghost predicate Safe()
      reads this, channel
    {
      ChannelTracked(View()) && SocketsConserved(View()) && BackedOff(View()) && Watched()
    }

    /** While connecting the channel is watched for writing. */
    ghost predicate Watched()
      reads this, channel
    {
      phase == Connecting ==> channel != null && channel.IsWriting()
    }

    constructor ()
      ensures Safe() && View() == INITIAL
    {
      connect, phase, channel, retryDelayMs, queue, batch := false, Disconnected, null, INIT_RETRY_DELAY_MS, [], [];
      made, running, ripe, young, handed, closed, delays := 0, false, 0, 0, [], [], [];
    }

    method Retry(sockfd: nat)
      modifies this
      ensures View() == Retried(old(View()), sockfd) && channel == old(channel)
    {
      closed := closed + [sockfd];
      phase := Disconnected;
      if connect {
        young, delays := young + 1, delays + [retryDelayMs];
        retryDelayMs := Min(retryDelayMs * 2, MAX_RETRY_DELAY_MS);
      }
    }

    method RemoveAndResetChannel() returns (sockfd: nat)
      requires channel != null
      modifies this`queue
      ensures View() == ChannelRemoved(old(View())) && sockfd == channel.fd
    {
      sockfd := channel.fd;
      queue := queue + [ResetTask];
    }

    method BeginConnecting(sockfd: nat)
      requires channel == null
      modifies this
      ensures View() == old(View()).(phase := Connecting, channel := Some(sockfd)) && fresh(channel)
      ensures channel.IsWriting()
    {
      phase := Connecting;
      channel := new Channel(sockfd);
      channel.EnableWriting();
    }

    method Connect(errno: Errno)
      requires Proceeds(errno) ==> channel == null
      modifies this
      ensures View() == ConnectedTo(old(View()), errno) && (old(phase) == Disconnected ==> Watched())
    {
      var sockfd := CreateNonblocking();
      match errno {
        case Done | EINPROGRESS | EINTR | EISCONN =>
          BeginConnecting(sockfd);
        case EAGAIN | EADDRINUSE | EADDRNOTAVAIL | ECONNREFUSED | ENETUNREACH =>
          Retry(sockfd);
        case Other =>
          Close(sockfd);
      }
    }

    method CreateNonblocking() returns (sockfd: nat)
      modifies this`made
      ensures View() == old(View()).(made := old(made) + 1) && sockfd == old(made)
    {
      sockfd := made;
      made := made + 1;
    }

    ghost method Close(sockfd: nat)
      modifies this`closed
      ensures View() == Closed(old(View()), sockfd)
    {
      closed := closed + [sockfd];
    }

    method StartInLoop(errno: Errno)
      requires phase == Disconnected && (connect && Proceeds(errno) ==> channel == null)
      modifies this
      ensures View() == StartedInLoop(old(View()), errno) && Watched()
    {
      if connect {
        Connect(errno);
      }
    }

    lemma Keeps(s: State, a: Step)
      requires ChannelTracked(s) && SocketsConserved(s) && BackedOff(s) && Enabled(s, a)
      requires View() == Next(s, a) && Watched()
      ensures Safe()
    {
      StepTracked(s, a);
      StepConserved(s, a);
      StepBackedOff(s, a);
    }

    /** Each method below demands just what the source asserts, and keeps the connector safe where the call is. */
    method Start(errno: Errno)
      requires AssertionsHold(View(), Step.Start(errno))
      modifies this
      ensures View() == Next(old(View()), Step.Start(errno))
      ensures old(Safe() && Enabled(View(), Step.Start(errno))) ==> Safe()
    {
      ghost var s, safe := View(), Safe() && Enabled(View(), Step.Start(errno));
      connect := true;
      StartInLoop(errno);
      if safe {
        Keeps(s, Step.Start(errno));
      }
    }

    method FireTimer(errno: Errno)
      requires AssertionsHold(View(), Step.FireTimer(errno))
      modifies this
      ensures View() == Next(old(View()), Step.FireTimer(errno))
      ensures old(Safe() && Enabled(View(), Step.FireTimer(errno))) ==> Safe()
    {
      ghost var s, safe := View(), Safe() && Enabled(View(), Step.FireTimer(errno));
      ripe := ripe - 1;
      StartInLoop(errno);
      if safe {
        Keeps(s, Step.FireTimer(errno));
      }
    }

    method Restart(errno: Errno)
      requires AssertionsHold(View(), Step.Restart(errno))
      modifies this
      ensures View() == Next(old(View()), Step.Restart(errno))
      ensures old(Safe() && Enabled(View(), Step.Restart(errno))) ==> Safe()
    {
      ghost var s, safe := View(), Safe() && Enabled(View(), Step.Restart(errno));
      phase := Disconnected;
      retryDelayMs, delays := INIT_RETRY_DELAY_MS, [];
      connect := true;
      StartInLoop(errno);
      if safe {
        Keeps(s, Step.Restart(errno));
      }
    }

    method Stop()
      modifies this
      ensures View() == Next(old(View()), Step.Stop)
      ensures old(Safe()) ==> Safe()
    {
      ghost var s, safe := View(), Safe();
      connect := false;
      queue := queue + [StopTask];
      if safe {
        Keeps(s, Step.Stop);
      }
    }

    method StopInLoop()
      requires phase == Connecting ==> channel != null
      modifies this
      ensures View() == StoppedInLoop(old(View()))
    {
      if phase == Connecting {
        phase := Disconnected;
        var sockfd := RemoveAndResetChannel();
        Retry(sockfd);
      }
    }

    /** doPendingFunctors swaps the queue out. */
    method BeginBatch()
      requires !running
      modifies this
      ensures View() == Next(old(View()), Step.BeginBatch)
      ensures old(Safe()) ==> Safe()
    {
      ghost var s, safe := View(), Safe();
      running, batch, queue := true, queue, [];
      if safe {
        Keeps(s, Step.BeginBatch);
      }
    }

    /** The batch goes on to the connector's next task. */
    method RunTask()
      requires running && AssertionsHold(View(), Step.RunTask)
      modifies this
      ensures View() == Next(old(View()), Step.RunTask)
      ensures old(Safe()) ==> Safe()
    {
      ghost var s, safe := View(), Safe();
      var task := batch[0];
      batch := batch[1..];
      match task {
        case ResetTask =>
          channel := null;
        case StopTask =>
          StopInLoop();
      }
      if safe {
        Keeps(s, Step.RunTask);
      }
    }

    /** The batch is done, and the loop polls again. */
    method EndPass()
      requires running && batch == []
      modifies this
      ensures View() == Next(old(View()), Step.EndPass)
      ensures old(Safe()) ==> Safe()
    {
      ghost var s, safe := View(), Safe();
      running, ripe, young := false, ripe + young, 0;
      if safe {
        Keeps(s, Step.EndPass);
      }
    }

    method HandleError()
      requires phase == Connecting ==> channel != null
      modifies this
      ensures View() == ErrorHandled(old(View())) && channel == old(channel)
    {
      if phase == Connecting {
        var sockfd := RemoveAndResetChannel();
        Retry(sockfd);
      }
    }

    method HandleWrite(soError: bool)
      requires phase == Connecting ==> channel != null
      requires phase == Connecting || phase == Disconnected
      modifies this
      ensures View() == WriteHandled(old(View()), soError)
    {
      if phase == Connecting {
        var sockfd := RemoveAndResetChannel();
        if soError {
          Retry(sockfd);
        } else {
          phase := Connected;
          if connect {
            handed := handed + [sockfd];
          } else {
            closed := closed + [sockfd];
          }
        }
      }
    }

    /** Channel::handleEvent: the error callback, then the write callback. */
    method HandleEvent(error: bool, writable: bool, soError: bool)
      requires AssertionsHold(View(), Step.HandleEvent(error, writable, soError))
      modifies this
      ensures View() == Next(old(View()), Step.HandleEvent(error, writable, soError))
      ensures old(Safe() && Enabled(View(), Step.HandleEvent(error, writable, soError))) ==> Safe()
    {
      ghost var step := Step.HandleEvent(error, writable, soError);
      ghost var s, safe := View(), Safe() && Enabled(View(), step);
      if error {
        HandleError();
      }
      if writable {
        HandleWrite(soError);
      }
      if safe {
        Keeps(s, step);
      }
    }
  }
}
