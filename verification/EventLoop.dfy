/** The task queue of an event loop and its wake-up protocol: wf_event_loop.h and wf_event_loop.cc. */
module EventLoops {
  /** A task, known by what it does to the loop while it runs on the loop's thread. */
  datatype Functor = Functor(id: nat, acts: seq<Act>)
  datatype Act = Queue(f: Functor) | QuitLoop

  /** An active channel: the wake-up channel, or any other with what its callbacks do to the loop. */
  datatype Event = Wakeup | Io(acts: seq<Act>)

  datatype Pc = Outside | Checking | AtPoll | Dispatching(events: seq<Event>) | Swapping | Running

  /** The largest value an eventfd counter takes; a write beyond it fails and leaves the counter alone. */
  const COUNTER_MAX: nat := 0xFFFF_FFFF_FFFF_FFFE

  function Signalled(counter: nat): nat {
    if counter < COUNTER_MAX then counter + 1 else counter
  }

  /**
   * Shared memory, the loop thread's position, and two histories. `owing` holds the foreign threads that have
   * pushed a task or set quit_ and not yet written to the eventfd; `todo` is the unfinished part of the callback
   * the loop thread is in, `pushed` its own stay between push_back and the test of callingPendingFunctors_.
   */
  datatype State = State(
    pc: Pc, pending: seq<Functor>, batch: seq<Functor>, calling: bool, quit: bool, counter: nat,
    owing: set<nat>, todo: seq<Act>, pushed: bool, queued: seq<Functor>, executed: seq<Functor>)
  {
    ghost predicate Awake() {
      counter > 0 || owing != {}
    }

    /** loop() is about to be called; earlier code may have left tasks, a signal or threads on their way. */
    ghost predicate AtEntry() {
      pc == Outside && batch == [] && !calling && todo == [] && !pushed && queued == executed + pending
    }

    ghost predicate Idle() {
      todo == [] && !pushed
    }

    /** Blocking in poll now could leave a task, or a quit since loop() was entered, unseen. */
    ghost predicate WouldOversleep() {
      pc == AtPoll && (pending != [] || quit) && !Awake()
    }
  }

  /** One atomic step of the loop thread, or of the foreign thread t. */
  datatype Step =
    | Enter | Check | Poll(events: seq<Event>) | Dispatch | StartPending | Swap | RunNext | Finish
    | DoAct | AfterPush
    | Push(t: nat, f: Functor) | SetQuit(t: nat) | Wake(t: nat)

  ghost predicate Enabled(s: State, a: Step) {
    match a
    case Enter => s.pc == Outside && s.Idle()
    case Check => s.pc == Checking
    case Poll(events) => s.pc == AtPoll && (Wakeup in events ==> s.counter > 0)
    case Dispatch => s.pc.Dispatching? && s.pc.events != [] && s.Idle()
    case StartPending => s.pc == Dispatching([]) && s.Idle()
    case Swap => s.pc == Swapping
    case RunNext => s.pc == Running && s.Idle() && s.batch != []
    case Finish => s.pc == Running && s.Idle() && s.batch == []
    case DoAct => s.todo != [] && !s.pushed
    case AfterPush => s.pushed
    case Push(t, f) => t !in s.owing
    case SetQuit(t) => t !in s.owing
    case Wake(t) => t in s.owing
  }

  ghost function Next(s: State, a: Step): State
    requires Enabled(s, a)
  {
    match a
    case Enter => s.(pc := Checking, quit := false)
    case Check => s.(pc := if s.quit then Outside else AtPoll)
    case Poll(events) => s.(pc := Dispatching(events))
    case Dispatch =>
      var later := s.(pc := Dispatching(s.pc.events[1..]));
      (match s.pc.events[0]
       case Wakeup => later.(counter := 0)
       case Io(acts) => later.(todo := acts))
    case StartPending => s.(pc := Swapping, calling := true)
    case Swap => s.(pc := Running, batch := s.pending, pending := [])
    case RunNext => s.(batch := s.batch[1..], todo := s.batch[0].acts, executed := s.executed + [s.batch[0]])
    case Finish => s.(pc := Checking, calling := false)
    case DoAct =>
      var later := s.(todo := s.todo[1..]);
      (match s.todo[0]
       case Queue(f) => later.(pending := s.pending + [f], queued := s.queued + [f], pushed := true)
       case QuitLoop => later.(quit := true))
    case AfterPush => s.(pushed := false, counter := if s.calling then Signalled(s.counter) else s.counter)
    case Push(t, f) => s.(pending := s.pending + [f], queued := s.queued + [f], owing := s.owing + {t})
    case SetQuit(t) => s.(quit := true, owing := s.owing + {t})
    case Wake(t) => s.(counter := Signalled(s.counter), owing := s.owing - {t})
  }

  ghost predicate LegalRun(s: State, run: seq<Step>)
    decreases |run|
  {
    run != [] ==> Enabled(s, run[0]) && LegalRun(Next(s, run[0]), run[1..])
  }

  ghost function After(s: State, run: seq<Step>): State
    requires LegalRun(s, run)
    decreases |run|
  {
    if run == [] then s else After(Next(s, run[0]), run[1..])
  }

  // ---- No lost wake-up ----

  ghost predicate Guarded(s: State) {
    && (s.calling <==> s.pc == Swapping || s.pc == Running)
    && (s.todo != [] || s.pushed ==> s.pc.Dispatching? || s.pc == Running)
    && (s.pc in {Outside, Checking, AtPoll, Running} && s.pending != [] ==> s.Awake() || s.pushed)
    && (s.pc == AtPoll && s.quit ==> s.Awake())
  }

  lemma GuardedStep(s: State, a: Step)
    requires Guarded(s) && Enabled(s, a)
    ensures Guarded(Next(s, a))
  {
  }

  lemma {:induction false} GuardedRun(s: State, run: seq<Step>)
    requires Guarded(s) && LegalRun(s, run)
    ensures Guarded(After(s, run))
    decreases |run|
  {
    if run != [] {
      GuardedStep(s, run[0]);
      GuardedRun(Next(s, run[0]), run[1..]);
    }
  }

  /** Some interleaving takes the loop from s to block over a queued task or a quit set since it was entered. */
  ghost predicate MayOversleep(s: State) {
    exists run :: LegalRun(s, run) && After(s, run).WouldOversleep()
  }

  /** A task queued on the loop's own thread before loop() posts no wake-up, and the first poll sleeps over it. */
  lemma SleepsAtOnce(s: State)
    requires s.AtEntry() && s.pending != [] && !s.Awake()
    ensures MayOversleep(s)
  {
    var entered := Next(s, Enter);
    var polling := Next(entered, Check);
    var run := [Enter, Check];
    assert LegalRun(polling, []) && After(polling, []) == polling;
    assert [Check][1..] == [] && LegalRun(entered, [Check]) && After(entered, [Check]) == polling;
    assert run[1..] == [Check] && LegalRun(s, run) && After(s, run) == polling;
  }

  /**
   * In no interleaving does the loop block over a queued task or a quit set since it was entered, if and only if
   * loop() is entered with an empty queue or with a wake-up posted or on its way.
   */
  lemma NoLostWakeup(s: State)
    requires s.AtEntry()
    ensures !MayOversleep(s) <==> s.pending == [] || s.Awake()
  {
    if s.pending == [] || s.Awake() {
      forall run | LegalRun(s, run) ensures !After(s, run).WouldOversleep() {
        GuardedRun(s, run);
      }
    } else {
      SleepsAtOnce(s);
    }
  }

  /** Once set, quit_ stays set until loop() is entered again. */
  lemma {:induction false} QuitStays(s: State, run: seq<Step>)
    requires s.quit && LegalRun(s, run) && Enter !in run
    ensures After(s, run).quit
    decreases |run|
  {
    if run != [] {
      assert run[0] != Enter && Enter !in run[1..];
      QuitStays(Next(s, run[0]), run[1..]);
    }
  }

  /** Outside loop() is left only by entering it, and reached only by testing quit_. */
  lemma {:induction false} InsideWithoutCheck(s: State, run: seq<Step>)
    requires s.quit && s.pc != Outside && LegalRun(s, run) && Check !in run
    ensures After(s, run).quit && After(s, run).pc != Outside
    decreases |run|
  {
    if run != [] {
      assert run[0] != Check && run[0] != Enter && Check !in run[1..];
      InsideWithoutCheck(Next(s, run[0]), run[1..]);
    }
  }

  /** In every interleaving quit_ is set when the loop next gets to test it. */
  ghost predicate QuitIsSeen(s: State) {
    forall run | LegalRun(s, run) && Check !in run && After(s, run).pc == Checking :: After(s, run).quit
  }

  /** A quit by another thread is seen by the loop's next test, if and only if it comes while loop() runs. */
  lemma QuitSeenExactly(s: State, t: nat)
    requires Guarded(s) && t !in s.owing
    ensures QuitIsSeen(Next(s, SetQuit(t))) <==> s.pc != Outside
  {
    var n := Next(s, SetQuit(t));
    if s.pc == Outside {
      var entered := Next(n, Enter);
      assert LegalRun(entered, []) && After(entered, []) == entered && [Enter][1..] == [];
      assert LegalRun(n, [Enter]) && After(n, [Enter]) == entered && Check !in [Enter];
    } else {
      forall run | LegalRun(n, run) && Check !in run ensures After(n, run).quit {
        InsideWithoutCheck(n, run);
      }
    }
  }

  lemma Ahead(s: State, a: Step, rest: seq<Step>)
    requires Enabled(s, a) && LegalRun(Next(s, a), rest)
    ensures LegalRun(s, [a] + rest) && After(s, [a] + rest) == After(Next(s, a), rest)
  {
    assert ([a] + rest)[1..] == rest;
  }

  /** A pass with nothing to run ends at the poll. */
  lemma SleepsAfterAPass(s: State) returns (run: seq<Step>)
    requires s.pc == Dispatching([]) && s.pending == [] && s.batch == [] && s.Idle() && !s.quit
    ensures run == [StartPending, Swap, Finish, Check]
    ensures LegalRun(s, run) && After(s, run) == s.(pc := AtPoll, calling := false)
  {
    var calling := Next(s, StartPending);
    var running := Next(calling, Swap);
    var checking := Next(running, Finish);
    assert checking == s.(pc := Checking, calling := false);
    assert LegalRun(Next(checking, Check), []);
    Ahead(checking, Check, []);
    Ahead(running, Finish, [Check]);
    Ahead(calling, Swap, [Finish] + [Check]);
    Ahead(s, StartPending, [Swap] + ([Finish] + [Check]));
    run := [StartPending] + ([Swap] + ([Finish] + [Check]));
  }

  lemma WakeupEndsPoll(s: State) returns (run: seq<Step>)
    requires s.pc == AtPoll && s.counter > 0
    requires s.pending == [] && s.batch == [] && s.Idle() && !s.quit && !s.calling
    ensures run == [Poll([Wakeup]), Dispatch, StartPending, Swap, Finish, Check]
    ensures LegalRun(s, run) && After(s, run) == s.(counter := 0)
  {
    var polled := Next(s, Poll([Wakeup]));
    assert [Wakeup][1..] == [];
    var rest := SleepsAfterAPass(Next(polled, Dispatch));
    Ahead(polled, Dispatch, rest);
    Ahead(s, Poll([Wakeup]), [Dispatch] + rest);
    run := [Poll([Wakeup])] + ([Dispatch] + rest);
  }

  lemma EntryClearsQuit(s: State) returns (run: seq<Step>)
    requires s.AtEntry() && s.counter > 0 && s.pending == []
    ensures run == [Enter, Check, Poll([Wakeup]), Dispatch, StartPending, Swap, Finish, Check]
    ensures LegalRun(s, run) && After(s, run) == s.(pc := AtPoll, quit := false, counter := 0)
  {
    var entered := Next(s, Enter);
    var rest := WakeupEndsPoll(Next(entered, Check));
    Ahead(entered, Check, rest);
    Ahead(s, Enter, [Check] + rest);
    run := [Enter] + ([Check] + rest);
  }

  lemma DebtPaid(owing: set<nat>, t: nat)
    requires t !in owing
    ensures owing + {t} - {t} == owing
  {
  }

  /** loop() clears a quit that came before it; its wake-up ends the first poll, and the second one sleeps. */
  lemma EarlyQuitIsLost(s: State, t: nat) returns (run: seq<Step>)
    requires s.AtEntry() && s.pending == [] && !s.Awake()
    ensures run == [SetQuit(t), Wake(t), Enter, Check, Poll([Wakeup]), Dispatch, StartPending, Swap, Finish, Check]
    ensures LegalRun(s, run)
    ensures After(s, run).pc == AtPoll && !After(s, run).quit && !After(s, run).Awake()
  {
    var asked := Next(s, SetQuit(t));
    var woken := Next(asked, Wake(t));
    DebtPaid(s.owing, t);
    var rest := EntryClearsQuit(woken);
    Ahead(asked, Wake(t), rest);
    Ahead(s, SetQuit(t), [Wake(t)] + rest);
    run := [SetQuit(t)] + ([Wake(t)] + rest);
  }

  // ---- Exactly once, in order ----

  ghost predicate Accounted(s: State) {
    s.queued == s.executed + s.batch + s.pending && (s.batch != [] ==> s.pc == Running)
  }

  lemma AccountedStep(s: State, a: Step)
    requires Accounted(s) && Enabled(s, a)
    ensures Accounted(Next(s, a))
  {
    if a == RunNext {
      assert s.executed + s.batch == s.executed + [s.batch[0]] + s.batch[1..];
    }
  }

  /** Over every run, the tasks run, then the batch still to run, then the queue, are all ever queued, in order. */
  lemma {:induction false} ExactlyOnceInOrder(s: State, run: seq<Step>)
    requires Accounted(s) && LegalRun(s, run)
    ensures Accounted(After(s, run))
    decreases |run|
  {
    if run != [] {
      AccountedStep(s, run[0]);
      ExactlyOnceInOrder(Next(s, run[0]), run[1..]);
    }
  }

  lemma {:induction false} OnlySwapAdmits(s: State, run: seq<Step>)
    requires LegalRun(s, run) && Swap !in run
    ensures var e := After(s, run); e.executed + e.batch == s.executed + s.batch
    decreases |run|
  {
    if run != [] {
      if run[0] == RunNext {
        assert s.executed + s.batch == s.executed + [s.batch[0]] + s.batch[1..];
      }
      OnlySwapAdmits(Next(s, run[0]), run[1..]);
    }
  }

  /** A pass runs exactly the tasks it swapped out, whatever they and other threads queue meanwhile. */
  lemma PassRunsSnapshot(s: State, body: seq<Step>)
    requires Enabled(s, Swap) && LegalRun(Next(s, Swap), body) && Swap !in body
    requires Enabled(After(Next(s, Swap), body), Finish)
    ensures After(Next(s, Swap), body).executed == s.executed + s.pending
  {
    OnlySwapAdmits(Next(s, Swap), body);
  }

  // ---- The loop thread's methods ----

  /** A run can be continued. */
  lemma {:induction false} RunExtends(s: State, run: seq<Step>, a: Step)
    requires LegalRun(s, run) && Enabled(After(s, run), a)
    ensures LegalRun(s, run + [a]) && After(s, run + [a]) == Next(After(s, run), a)
    decreases |run|
  {
    if run == [] {
      var t := Next(s, a);
      assert LegalRun(t, []) && After(t, []) == t;
      assert run + [a] == [a] && [a][1..] == [];
    } else {
      assert (run + [a])[1..] == run[1..] + [a];
      RunExtends(Next(s, run[0]), run[1..], a);
    }
  }

  /** The tasks that callbacks doing these acts queue. */
  function QueuedBy(acts: seq<Act>): seq<Functor> {
    if acts == [] then []
    else QueuedByOne(acts[0]) + QueuedBy(acts[1..])
  }

  function QueuedByOne(act: Act): seq<Functor> {
    match act case Queue(f) => [f] case QuitLoop => []
  }

  lemma Assoc(a: seq<Functor>, b: seq<Functor>, c: seq<Functor>)
    ensures a + b + c == a + (b + c)
  {
  }

  function AllActs(fs: seq<Functor>): seq<Act> {
    if fs == [] then [] else fs[0].acts + AllActs(fs[1..])
  }

  lemma {:induction false} QueuedByConcat(a: seq<Act>, b: seq<Act>)
    ensures QueuedBy(a + b) == QueuedBy(a) + QueuedBy(b)
    ensures QuitLoop in a + b <==> QuitLoop in a || QuitLoop in b
  {
    if a == [] {
      assert a + b == b;
    } else {
      assert (a + b)[1..] == a[1..] + b;
      QueuedByConcat(a[1..], b);
    }
  }

  lemma QueuedByOneMore(acts: seq<Act>, i: nat)
    requires i < |acts|
    ensures QueuedBy(acts[..i + 1]) ==
            QueuedBy(acts[..i]) + QueuedByOne(acts[i])
    ensures QuitLoop in acts[..i + 1] <==> QuitLoop in acts[..i] || acts[i] == QuitLoop
  {
    assert acts[..i + 1] == acts[..i] + [acts[i]];
    QueuedByConcat(acts[..i], [acts[i]]);
  }

  lemma {:induction false} AllActsConcat(a: seq<Functor>, f: Functor)
    ensures AllActs(a + [f]) == AllActs(a) + f.acts
  {
    if a == [] {
      assert a + [f] == [f] && AllActs([f]) == f.acts + AllActs([]);
    } else {
      assert (a + [f])[1..] == a[1..] + [f];
      AllActsConcat(a[1..], f);
    }
  }

  lemma ActsOneMore(fs: seq<Functor>, i: nat)
    requires i < |fs|
    ensures QueuedBy(AllActs(fs[..i + 1])) == QueuedBy(AllActs(fs[..i])) + QueuedBy(fs[i].acts)
    ensures QuitLoop in AllActs(fs[..i + 1]) <==> QuitLoop in AllActs(fs[..i]) || QuitLoop in fs[i].acts
  {
    assert fs[..i + 1] == fs[..i] + [fs[i]];
    AllActsConcat(fs[..i], fs[i]);
    QueuedByConcat(AllActs(fs[..i]), fs[i].acts);
  }

  /** What the callback of an active channel does, and all that those of some channels do. */
  function EventActs(e: Event): seq<Act> {
    match e case Wakeup => [] case Io(acts) => acts
  }

  function AllEventActs(events: seq<Event>): seq<Act> {
    if events == [] then [] else EventActs(events[0]) + AllEventActs(events[1..])
  }

  lemma {:induction false} AllEventActsConcat(a: seq<Event>, e: Event)
    ensures AllEventActs(a + [e]) == AllEventActs(a) + EventActs(e)
  {
    if a == [] {
      assert a + [e] == [e] && AllEventActs([e]) == EventActs(e) + AllEventActs([]);
    } else {
      assert (a + [e])[1..] == a[1..] + [e];
      AllEventActsConcat(a[1..], e);
    }
  }

  lemma NextEvent(events: seq<Event>, i: nat)
    requires i < |events|
    ensures events[i..] == [events[i]] + events[i + 1..]
  {
  }

  lemma EventActsOneMore(events: seq<Event>, i: nat)
    requires i < |events|
    ensures QueuedBy(AllEventActs(events[..i + 1])) ==
            QueuedBy(AllEventActs(events[..i])) + QueuedBy(EventActs(events[i]))
  {
    assert events[..i + 1] == events[..i] + [events[i]];
    AllEventActsConcat(events[..i], events[i]);
    QueuedByConcat(AllEventActs(events[..i]), EventActs(events[i]));
  }

  /** The callbacks of the channels poll reports before and after the wake-up channel. */
  datatype PollResult = PollResult(before: seq<seq<Act>>, after: seq<seq<Act>>) {
    /** The wake-up channel is level-triggered: it is reported while its counter is positive. */
    function Active(counter: nat): (events: seq<Event>)
      ensures Wakeup in events <==> counter > 0
    {
      AsEvents(before) + (if counter > 0 then [Wakeup] else []) + AsEvents(after)
    }
  }

  function AsEvents(callbacks: seq<seq<Act>>): (events: seq<Event>)
    ensures Wakeup !in events && |events| == |callbacks|
    ensures forall i :: 0 <= i < |callbacks| ==> events[i] == Io(callbacks[i])
  {
    seq(|callbacks|, i requires 0 <= i < |callbacks| => Io(callbacks[i]))
  }

  function AllOf(callbacks: seq<seq<Act>>): seq<Act> {
    if callbacks == [] then [] else callbacks[0] + AllOf(callbacks[1..])
  }

  /** What the callbacks of the reported channels do, in order. */
  function Callbacks(poll: PollResult): seq<Act> {
    AllOf(poll.before) + AllOf(poll.after)
  }

  lemma {:induction false} AllEventActsJoin(a: seq<Event>, b: seq<Event>)
    ensures AllEventActs(a + b) == AllEventActs(a) + AllEventActs(b)
  {
    if a == [] {
      assert a + b == b;
    } else {
      assert (a + b)[0] == a[0] && (a + b)[1..] == a[1..] + b;
      AllEventActsJoin(a[1..], b);
    }
  }

  lemma {:induction false} CallbacksAsEvents(callbacks: seq<seq<Act>>)
    ensures AllEventActs(AsEvents(callbacks)) == AllOf(callbacks)
  {
    if callbacks != [] {
      assert AsEvents(callbacks)[1..] == AsEvents(callbacks[1..]);
      CallbacksAsEvents(callbacks[1..]);
    }
  }

  /** The wake-up channel's callback does nothing but read the counter. */
  lemma ActiveCallbacks(poll: PollResult, counter: nat)
    ensures AllEventActs(poll.Active(counter)) == Callbacks(poll)
  {
    var a, b := AsEvents(poll.before), AsEvents(poll.after);
    var w := if counter > 0 then [Wakeup] else [];
    AllEventActsJoin(a + w, b);
    AllEventActsJoin(a, w);
    CallbacksAsEvents(poll.before);
    CallbacksAsEvents(poll.after);
    assert [Wakeup][1..] == [];
    assert AllEventActs(w) == [];
  }

  /** What the loop thread queues in rounds with these polls, in which these functors ran. */
  function QueuedInRounds(polls: seq<PollResult>, passes: seq<seq<Functor>>): seq<Functor>
    requires |polls| == |passes|
    decreases |polls|
  {
    if polls == [] then []
    else
      var n := |polls| - 1;
      QueuedInRounds(polls[..n], passes[..n]) + (QueuedBy(Callbacks(polls[n])) + QueuedBy(AllActs(passes[n])))
  }

  function Joined(passes: seq<seq<Functor>>): seq<Functor> {
    if passes == [] then [] else Joined(passes[..|passes| - 1]) + passes[|passes| - 1]
  }

  /** From what a loop had queued, run and pending, rounds with these polls have led to what it has now. */
  ghost predicate Rounds(from: Progress, polls: seq<PollResult>, passes: seq<seq<Functor>>, to: Progress) {
    && |passes| == |polls|
    && to.own == from.own + QueuedInRounds(polls, passes)
    && to.executed == from.executed + Joined(passes)
    && from.pending <= if passes == [] then to.pending else passes[0]
  }

  /** The functors queued by the loop's own thread, those executed, and those pending. */
  datatype Progress = Progress(own: seq<Functor>, executed: seq<Functor>, pending: seq<Functor>)

  /** One round: the callbacks of the reported channels, then a pass over what was pending and what came before it. */
  ghost predicate OneRound(from: Progress, poll: PollResult, pass: seq<Functor>, to: Progress) {
    && to.own == from.own + (QueuedBy(Callbacks(poll)) + QueuedBy(AllActs(pass)))
    && to.executed == from.executed + pass && from.pending <= pass
  }

  lemma NoRounds(from: Progress, to: Progress)
    requires to.own == from.own && to.executed == from.executed && from.pending <= to.pending
    ensures Rounds(from, [], [], to)
  {
  }

  lemma StillRounds(from: Progress, polls: seq<PollResult>, passes: seq<seq<Functor>>, mid: Progress, to: Progress)
    requires Rounds(from, polls, passes, mid)
    requires to.own == mid.own && to.executed == mid.executed && mid.pending <= to.pending
    ensures Rounds(from, polls, passes, to)
  {
  }

  lemma OneMoreRound(
      from: Progress, polls: seq<PollResult>, passes: seq<seq<Functor>>,
      mid: Progress, pass: seq<Functor>, to: Progress)
    requires |passes| < |polls| && Rounds(from, polls[..|passes|], passes, mid)
    requires OneRound(mid, polls[|passes|], pass, to)
    ensures Rounds(from, polls[..|passes| + 1], passes + [pass], to)
  {
    var n := |passes|;
    assert polls[..n + 1][..n] == polls[..n] && (passes + [pass])[..n] == passes;
    Assoc(from.own, QueuedInRounds(polls[..n], passes), QueuedBy(Callbacks(polls[n])) + QueuedBy(AllActs(pass)));
    Assoc(from.executed, Joined(passes), pass);
    if n == 0 {
      Grown(from.pending, mid.pending, pass);
    }
  }

  lemma Grown(a: seq<Functor>, b: seq<Functor>, c: seq<Functor>)
    requires a <= b <= c
    ensures a <= c
  {
  }

  lemma OneMoreAct(own: seq<Functor>, acts: seq<Act>, i: nat)
    requires i < |acts|
    ensures own + QueuedBy(acts[..i + 1]) == own + QueuedBy(acts[..i]) + QueuedByOne(acts[i])
    ensures QuitLoop in acts[..i + 1] <==> QuitLoop in acts[..i] || acts[i] == QuitLoop
    ensures QueuedBy(acts[..i + 1]) != [] ==> QueuedBy(acts[..i]) != [] || acts[i] != QuitLoop
    ensures acts[i..] == [acts[i]] + acts[i + 1..]
  {
    QueuedByOneMore(acts, i);
    Assoc(own, QueuedBy(acts[..i]), QueuedByOne(acts[i]));
  }

  lemma OneMoreFunctor(own: seq<Functor>, ran: seq<Functor>, fs: seq<Functor>, i: nat)
    requires i < |fs|
    ensures own + QueuedBy(AllActs(fs[..i + 1])) == own + QueuedBy(AllActs(fs[..i])) + QueuedBy(fs[i].acts)
    ensures QuitLoop in AllActs(fs[..i + 1]) <==> QuitLoop in AllActs(fs[..i]) || QuitLoop in fs[i].acts
    ensures QueuedBy(AllActs(fs[..i + 1])) != [] ==> QueuedBy(AllActs(fs[..i])) != [] || QueuedBy(fs[i].acts) != []
    ensures ran + fs[..i + 1] == ran + fs[..i] + [fs[i]] && fs[i..] == [fs[i]] + fs[i + 1..]
  {
    ActsOneMore(fs, i);
    Assoc(own, QueuedBy(AllActs(fs[..i])), QueuedBy(fs[i].acts));
  }

  lemma OneMoreEvent(own: seq<Functor>, events: seq<Event>, i: nat)
    requires i < |events|
    ensures own + QueuedBy(AllEventActs(events[..i + 1])) ==
            own + QueuedBy(AllEventActs(events[..i])) + QueuedBy(EventActs(events[i]))
    ensures events[i..] == [events[i]] + events[i + 1..]
  {
    EventActsOneMore(events, i);
    NextEvent(events, i);
    Assoc(own, QueuedBy(AllEventActs(events[..i])), QueuedBy(EventActs(events[i])));
  }

  /** Another thread's step, if it is one and can be made. */
  ghost function OtherThread(s: State, a: Step): State {
    if (a.Push? || a.SetQuit? || a.Wake?) && Enabled(s, a) then Next(s, a) else s
  }

  ghost function Interfered(s: State, steps: seq<Step>): State
    decreases |steps|
  {
    if steps == [] then s else OtherThread(Interfered(s, steps[..|steps| - 1]), steps[|steps| - 1])
  }

  /** `others` is what other threads do between the loop thread's steps: at its n-th such point, others(n). */
  class EventLoop {
    var pendingFunctors: seq<Functor>
    var callingPendingFunctors: bool
    var quit: bool
    var eventFd: nat
    var owing: set<nat>
    var point: nat
    const others: nat -> seq<Step>
    ghost var pc: Pc
    ghost var batch: seq<Functor>
    ghost var todo: seq<Act>
    ghost var pushed: bool
    ghost var queued: seq<Functor>
    ghost var executed: seq<Functor>
    ghost var own: seq<Functor>
    ghost const birth: State
    ghost var trace: seq<Step>

    ghost function View(): State
      reads this
    {
      State(pc, pendingFunctors, batch, callingPendingFunctors, quit, eventFd,
            owing, todo, pushed, queued, executed)
    }

    /** All that has happened to this loop so far is a run of the protocol, from an empty queue. */
    ghost predicate Tracked()
      reads this
    {
      birth.AtEntry() && birth.pending == [] && LegalRun(birth, trace) && After(birth, trace) == View()
    }

    /** What the protocol's theorems say about this object, whatever was called on it and whatever others do. */
    lemma NeverOversleeps()
      requires Tracked()
      ensures !View().WouldOversleep() && Guarded(View()) && Accounted(View())
    {
      GuardedRun(birth, trace);
      assert birth.executed + birth.batch + birth.pending == birth.executed + birth.pending;
      ExactlyOnceInOrder(birth, trace);
    }

    /** The source leaves callingPendingFunctors_ unset; here it starts out false. */
    constructor (others: nat -> seq<Step>)
      ensures Tracked() && View().AtEntry() && pendingFunctors == [] && executed == [] && own == []
      ensures this.others == others
    {
      pendingFunctors, callingPendingFunctors, quit, eventFd := [], false, false, 0;
      owing, point, this.others := {}, 0, others;
      pc, batch, todo, pushed, queued, executed, own := Outside, [], [], false, [], [], [];
      birth, trace := State(Outside, [], [], false, false, 0, {}, [], false, [], []), [];
    }

    /** Record that the fields have just made the given step. */
    ghost method Record(s: State, a: Step)
      requires birth.AtEntry() && birth.pending == []
      requires LegalRun(birth, trace) && After(birth, trace) == s
      requires Enabled(s, a) && View() == Next(s, a)
      modifies this`trace
      ensures Tracked()
    {
      RunExtends(birth, trace, a);
      trace := trace + [a];
    }

    method WakeUp()
      modifies this`eventFd
      ensures eventFd == Signalled(old(eventFd))
    {
      eventFd := if eventFd < COUNTER_MAX then eventFd + 1 else eventFd;
    }

    method HandleRead()
      modifies this`eventFd
      ensures eventFd == 0
    {
      eventFd := 0;
    }

    // ---- Other threads ----

    /** queueInLoop from a foreign thread: the push under the lock; ForeignWake is its other half. */
    method ForeignPush(t: nat, cb: Functor)
      requires Tracked() && t !in owing
      modifies this`pendingFunctors, this`queued, this`owing, this`trace
      ensures Tracked() && View() == Next(old(View()), Push(t, cb))
    {
      ghost var s := View();
      pendingFunctors := pendingFunctors + [cb];
      queued, owing := queued + [cb], owing + {t};
      Record(s, Push(t, cb));
    }

    /** quit() from a foreign thread, up to its wake-up. */
    method ForeignQuit(t: nat)
      requires Tracked() && t !in owing
      modifies this`quit, this`owing, this`trace
      ensures Tracked() && View() == Next(old(View()), SetQuit(t))
    {
      ghost var s := View();
      quit := true;
      owing := owing + {t};
      Record(s, SetQuit(t));
    }

    method ForeignWake(t: nat)
      requires Tracked() && t in owing
      modifies this`eventFd, this`owing, this`trace
      ensures Tracked() && View() == Next(old(View()), Wake(t))
    {
      ghost var s := View();
      WakeUp();
      owing := owing - {t};
      Record(s, Wake(t));
    }

    method OtherStep(a: Step)
      requires Tracked()
      modifies this`pendingFunctors, this`quit, this`eventFd, this`owing, this`queued, this`trace
      ensures Tracked() && View() == OtherThread(old(View()), a)
      ensures old(pendingFunctors) <= pendingFunctors && (old(quit) ==> quit) && old(eventFd) <= eventFd
    {
      match a {
        case Push(t, f) =>
          if t !in owing {
            ForeignPush(t, f);
          }
        case SetQuit(t) =>
          if t !in owing {
            ForeignQuit(t);
          }
        case Wake(t) =>
          if t in owing {
            ForeignWake(t);
          }
        case _ =>
      }
    }

    /** Whatever other threads do before the loop thread's next step. */
    method Others()
      requires Tracked()
      modifies this`pendingFunctors, this`quit, this`eventFd, this`owing, this`point, this`queued, this`trace
      ensures Tracked() && View() == Interfered(old(View()), others(old(point))) && point == old(point) + 1
      ensures old(pendingFunctors) <= pendingFunctors && (old(quit) ==> quit) && old(eventFd) <= eventFd
    {
      var steps := others(point);
      point := point + 1;
      for i := 0 to |steps|
        invariant Tracked() && View() == Interfered(old(View()), steps[..i]) && point == old(point) + 1
        invariant old(pendingFunctors) <= pendingFunctors && (old(quit) ==> quit) && old(eventFd) <= eventFd
      {
        assert steps[..i + 1][..i] == steps[..i];
        ghost var before := pendingFunctors;
        OtherStep(steps[i]);
        Grown(old(pendingFunctors), before, pendingFunctors);
      }
      assert steps[..|steps|] == steps;
    }

    // ---- Callbacks on the loop thread ----

    /** queueInLoop from the loop's own thread, as the next act of the running callback. */
    method QueueInLoop(cb: Functor)
      requires Tracked() && !pushed && todo != [] && todo[0] == Queue(cb)
      modifies this`pendingFunctors, this`quit, this`eventFd, this`owing, this`point, this`queued, this`trace
      modifies this`todo, this`pushed, this`own
      ensures Tracked() && !pushed && todo == old(todo[1..]) && own == old(own) + [cb]
      ensures old(pendingFunctors) <= pendingFunctors && (old(quit) ==> quit) && old(eventFd) <= eventFd
      ensures cb in pendingFunctors && (callingPendingFunctors ==> eventFd > 0)
    {
      PushInLoop(cb);
      WakeIfCalling();
    }

    /** The first half of queueInLoop: the push under the lock. */
    method PushInLoop(cb: Functor)
      requires Tracked() && !pushed && todo != [] && todo[0] == Queue(cb)
      modifies this`pendingFunctors, this`quit, this`eventFd, this`owing, this`point, this`queued, this`trace
      modifies this`todo, this`pushed, this`own
      ensures point == old(point) + 1
      ensures Tracked() && pushed && todo == old(todo[1..]) && own == old(own) + [cb]
      ensures old(pendingFunctors) <= pendingFunctors && (old(quit) ==> quit) && old(eventFd) <= eventFd
      ensures cb in pendingFunctors
    {
      Others();
      own := own + [cb];
      PushBack(cb);
    }

    method PushBack(cb: Functor)
      requires Tracked() && !pushed && todo != [] && todo[0] == Queue(cb)
      modifies this`pendingFunctors, this`queued, this`trace, this`todo, this`pushed
      ensures Tracked() && View() == Next(old(View()), DoAct)
    {
      ghost var s := View();
      pendingFunctors := pendingFunctors + [cb];
      queued, todo, pushed := queued + [cb], todo[1..], true;
      Record(s, DoAct);
    }

    /** The second half of queueInLoop: a wake-up only while pending functors are being run. */
    method WakeIfCalling()
      requires Tracked() && pushed
      modifies this`pendingFunctors, this`quit, this`eventFd, this`owing, this`point, this`queued, this`trace
      modifies this`pushed
      ensures point == old(point) + 1
      ensures Tracked() && !pushed
      ensures old(pendingFunctors) <= pendingFunctors && (old(quit) ==> quit) && old(eventFd) <= eventFd
      ensures callingPendingFunctors ==> eventFd > 0
    {
      Others();
      ghost var s := View();
      if callingPendingFunctors {
        WakeUp();
      }
      pushed := false;
      Record(s, AfterPush);
    }

    /** quit() from the loop's own thread. */
    method QuitInLoop()
      requires Tracked() && !pushed && todo != [] && todo[0] == QuitLoop
      modifies this`pendingFunctors, this`quit, this`eventFd, this`owing, this`point, this`queued, this`trace
      modifies this`todo
      ensures point == old(point) + 1
      ensures Tracked() && quit && todo == old(todo[1..])
      ensures old(pendingFunctors) <= pendingFunctors && old(eventFd) <= eventFd
    {
      Others();
      ghost var s := View();
      quit := true;
      todo := todo[1..];
      Record(s, DoAct);
    }

    /** The next act of the running callback. */
    method Perform(act: Act, ghost later: seq<Act>)
      requires Tracked() && !pushed && todo == [act] + later
      modifies this`pendingFunctors, this`quit, this`eventFd, this`owing, this`point, this`queued, this`trace
      modifies this`todo, this`pushed, this`own
      ensures Tracked() && !pushed && todo == later
      ensures own == old(own) + QueuedByOne(act)
      ensures old(pendingFunctors) <= pendingFunctors && old(eventFd) <= eventFd
      ensures old(quit) || act == QuitLoop ==> quit
      ensures callingPendingFunctors && act != QuitLoop ==> eventFd > 0
    {
      assert ([act] + later)[1..] == later;
      match act {
        case Queue(f) =>
          QueueInLoop(f);
        case QuitLoop =>
          QuitInLoop();
      }
    }

    /** Run a callback on the loop's thread: its acts in order. */
    method Call(acts: seq<Act>)
      requires Tracked() && todo == acts && !pushed
      modifies this`pendingFunctors, this`quit, this`eventFd, this`owing, this`point, this`queued, this`trace
      modifies this`todo, this`pushed, this`own
      ensures Tracked() && View().Idle() && own == old(own) + QueuedBy(acts)
      ensures old(pendingFunctors) <= pendingFunctors && old(eventFd) <= eventFd
      ensures old(quit) || QuitLoop in acts ==> quit
      ensures callingPendingFunctors && QueuedBy(acts) != [] ==> eventFd > 0
    {
      var i := 0;
      while i < |acts|
        invariant 0 <= i <= |acts| && todo == acts[i..] && !pushed && Tracked()
        invariant own == old(own) + QueuedBy(acts[..i])
        invariant old(pendingFunctors) <= pendingFunctors && old(eventFd) <= eventFd
        invariant old(quit) || QuitLoop in acts[..i] ==> quit
        invariant callingPendingFunctors && QueuedBy(acts[..i]) != [] ==> eventFd > 0
      {
        OneMoreAct(old(own), acts, i);
        Perform(acts[i], acts[i + 1..]);
        i := i + 1;
      }
      assert acts[..i] == acts;
    }

    // ---- The pending functors ----

    /** Set callingPendingFunctors_, then swap the queue out under the lock. */
    method SwapOut() returns (functors: seq<Functor>)
      requires Tracked() && pc == Dispatching([]) && View().Idle() && batch == []
      modifies this`pendingFunctors, this`quit, this`eventFd, this`owing, this`point, this`queued, this`trace
      modifies this`pc, this`callingPendingFunctors, this`batch
      ensures point == old(point) + 2
      ensures Tracked() && pc == Running && callingPendingFunctors && batch == functors && pendingFunctors == []
      ensures old(pendingFunctors) <= functors && (old(quit) ==> quit) && old(eventFd) <= eventFd
    {
      StartCalling();
      Others();
      ghost var s := View();
      functors := pendingFunctors;
      pendingFunctors := [];
      pc, batch := Running, functors;
      Record(s, Swap);
    }

    method StartCalling()
      requires Tracked() && pc == Dispatching([]) && View().Idle()
      modifies this`pendingFunctors, this`quit, this`eventFd, this`owing, this`point, this`queued, this`trace
      modifies this`pc, this`callingPendingFunctors
      ensures point == old(point) + 1
      ensures Tracked() && pc == Swapping && callingPendingFunctors
      ensures old(pendingFunctors) <= pendingFunctors && (old(quit) ==> quit) && old(eventFd) <= eventFd
    {
      Others();
      ghost var s := View();
      callingPendingFunctors := true;
      pc := Swapping;
      Record(s, StartPending);
    }

    method RunFunctor(functor: Functor)
      requires Tracked() && pc == Running && View().Idle() && batch != [] && batch[0] == functor
      requires callingPendingFunctors
      modifies this`pendingFunctors, this`quit, this`eventFd, this`owing, this`point, this`queued, this`trace
      modifies this`todo, this`pushed, this`own, this`batch, this`executed
      ensures Tracked() && View().Idle() && batch == old(batch[1..]) && executed == old(executed) + [functor]
      ensures own == old(own) + QueuedBy(functor.acts)
      ensures old(eventFd) <= eventFd && (old(quit) || QuitLoop in functor.acts ==> quit)
      ensures QueuedBy(functor.acts) != [] ==> eventFd > 0
    {
      TakeFunctor(functor);
      Call(functor.acts);
    }

    method TakeFunctor(functor: Functor)
      requires Tracked() && pc == Running && View().Idle() && batch != [] && batch[0] == functor
      modifies this`pendingFunctors, this`quit, this`eventFd, this`owing, this`point, this`queued, this`trace
      modifies this`todo, this`batch, this`executed
      ensures point == old(point) + 1
      ensures Tracked() && todo == functor.acts && batch == old(batch[1..]) && executed == old(executed) + [functor]
      ensures (old(quit) ==> quit) && old(eventFd) <= eventFd
    {
      Others();
      ghost var s := View();
      batch, todo, executed := batch[1..], functor.acts, executed + [functor];
      Record(s, RunNext);
    }

    method RunBatch(functors: seq<Functor>)
      requires Tracked() && pc == Running && View().Idle() && batch == functors && callingPendingFunctors
      modifies this`pendingFunctors, this`quit, this`eventFd, this`owing, this`point, this`queued, this`trace
      modifies this`todo, this`pushed, this`own, this`batch, this`executed
      ensures Tracked() && View().Idle() && batch == [] && executed == old(executed) + functors
      ensures own == old(own) + QueuedBy(AllActs(functors))
      ensures old(eventFd) <= eventFd && (old(quit) || QuitLoop in AllActs(functors) ==> quit)
      ensures QueuedBy(AllActs(functors)) != [] ==> eventFd > 0
    {
      var i := 0;
      while i < |functors|
        invariant 0 <= i <= |functors| && batch == functors[i..] && View().Idle() && Tracked()
        invariant executed == old(executed) + functors[..i]
        invariant own == old(own) + QueuedBy(AllActs(functors[..i]))
        invariant old(eventFd) <= eventFd && (old(quit) || QuitLoop in AllActs(functors[..i]) ==> quit)
        invariant QueuedBy(AllActs(functors[..i])) != [] ==> eventFd > 0
      {
        OneMoreFunctor(old(own), old(executed), functors, i);
        RunFunctor(functors[i]);
        i := i + 1;
      }
      assert functors[..i] == functors;
    }

    /** One pass: what was pending, and what others pushed before the swap, runs in order; the rest waits, signalled. */
    method DoPendingFunctors() returns (functors: seq<Functor>)
      requires Tracked() && pc == Dispatching([]) && View().Idle() && batch == []
      modifies this`pendingFunctors, this`quit, this`eventFd, this`owing, this`point, this`queued, this`trace
      modifies this`todo, this`pushed, this`own, this`batch, this`executed, this`pc, this`callingPendingFunctors
      ensures Tracked() && View().Idle() && pc == Checking && !callingPendingFunctors && batch == []
      ensures old(pendingFunctors) <= functors && executed == old(executed) + functors
      ensures own == old(own) + QueuedBy(AllActs(functors)) && queued == executed + pendingFunctors
      ensures old(quit) || QuitLoop in AllActs(functors) ==> quit
      ensures pendingFunctors != [] ==> View().Awake()
    {
      functors := RunPending();
      FinishPass();
      AfterPass();
    }

    /** A pass up to the point where callingPendingFunctors_ is reset. */
    method RunPending() returns (functors: seq<Functor>)
      requires Tracked() && pc == Dispatching([]) && View().Idle() && batch == []
      modifies this`pendingFunctors, this`quit, this`eventFd, this`owing, this`point, this`queued, this`trace
      modifies this`todo, this`pushed, this`own, this`batch, this`executed, this`pc, this`callingPendingFunctors
      ensures Tracked() && View().Idle() && pc == Running && batch == []
      ensures old(pendingFunctors) <= functors && executed == old(executed) + functors
      ensures own == old(own) + QueuedBy(AllActs(functors))
      ensures old(quit) || QuitLoop in AllActs(functors) ==> quit
    {
      functors := SwapOut();
      RunBatch(functors);
    }

    lemma AfterPass()
      requires Tracked() && pc == Checking && View().Idle() && batch == []
      ensures queued == executed + pendingFunctors && (pendingFunctors != [] ==> View().Awake())
    {
      NeverOversleeps();
      assert executed + batch + pendingFunctors == executed + pendingFunctors;
    }

    method FinishPass()
      requires Tracked() && pc == Running && View().Idle() && batch == []
      modifies this`pendingFunctors, this`quit, this`eventFd, this`owing, this`point, this`queued, this`trace
      modifies this`pc, this`callingPendingFunctors
      ensures point == old(point) + 1
      ensures Tracked() && pc == Checking && !callingPendingFunctors && (old(quit) ==> quit)
    {
      Others();
      ghost var s := View();
      callingPendingFunctors := false;
      pc := Checking;
      Record(s, Finish);
    }

    // ---- The loop ----

    /** The next active channel: the wake-up channel, or the callback of another, which is then to be run. */
    method Dispatch(event: Event, ghost later: seq<Event>) returns (acts: seq<Act>)
      requires Tracked() && pc == Dispatching([event] + later) && View().Idle()
      modifies this`pendingFunctors, this`quit, this`eventFd, this`owing, this`point, this`queued, this`trace
      modifies this`todo, this`pc
      ensures point == old(point) + 1
      ensures Tracked() && pc == Dispatching(later) && todo == acts == EventActs(event)
      ensures old(pendingFunctors) <= pendingFunctors && (old(quit) ==> quit)
    {
      Others();
      ghost var s := View();
      assert ([event] + later)[1..] == later;
      pc := Dispatching(later);
      acts := EventActs(event);
      if event == Wakeup {
        HandleRead();
      } else {
        todo := acts;
      }
      Record(s, Step.Dispatch);
    }

    method HandleEvent(event: Event, ghost later: seq<Event>)
      requires Tracked() && pc == Dispatching([event] + later) && View().Idle()
      modifies this`pendingFunctors, this`quit, this`eventFd, this`owing, this`point, this`queued, this`trace
      modifies this`todo, this`pushed, this`own, this`pc
      ensures Tracked() && pc == Dispatching(later) && View().Idle()
      ensures own == old(own) + QueuedBy(EventActs(event))
      ensures old(pendingFunctors) <= pendingFunctors && (old(quit) ==> quit)
    {
      var acts := Dispatch(event, later);
      Call(acts);
    }

    method HandleEvents(events: seq<Event>)
      requires Tracked() && pc == Dispatching(events) && View().Idle()
      modifies this`pendingFunctors, this`quit, this`eventFd, this`owing, this`point, this`queued, this`trace
      modifies this`todo, this`pushed, this`own, this`pc
      ensures Tracked() && pc == Dispatching([]) && View().Idle()
      ensures own == old(own) + QueuedBy(AllEventActs(events))
      ensures old(pendingFunctors) <= pendingFunctors && (old(quit) ==> quit)
    {
      var i := 0;
      while i < |events|
        invariant 0 <= i <= |events| && pc == Dispatching(events[i..]) && View().Idle() && Tracked()
        invariant own == old(own) + QueuedBy(AllEventActs(events[..i]))
        invariant old(pendingFunctors) <= pendingFunctors && (old(quit) ==> quit)
      {
        OneMoreEvent(old(own), events, i);
        HandleEvent(events[i], events[i + 1..]);
        i := i + 1;
      }
      assert events[..i] == events;
    }

    /** The loop's test of quit_. */
    method TestQuit() returns (stop: bool)
      requires Tracked() && pc == Checking
      modifies this`pendingFunctors, this`quit, this`eventFd, this`owing, this`point, this`queued, this`trace
      modifies this`pc
      ensures point == old(point) + 1
      ensures Tracked() && pc == (if stop then Outside else AtPoll) && stop == quit && (old(quit) ==> stop)
      ensures old(pendingFunctors) <= pendingFunctors
    {
      Others();
      ghost var s := View();
      stop := quit;
      pc := if stop then Outside else AtPoll;
      Record(s, Check);
    }

    /** poll, with the wake-up channel reported while its counter is positive. */
    method DoPoll(poll: PollResult) returns (events: seq<Event>)
      requires Tracked() && pc == AtPoll
      modifies this`pendingFunctors, this`quit, this`eventFd, this`owing, this`point, this`queued, this`trace
      modifies this`pc
      ensures point == old(point) + 1
      ensures Tracked() && pc == Dispatching(events)
      ensures events == AsEvents(poll.before) + (if eventFd > 0 then [Wakeup] else []) + AsEvents(poll.after)
      ensures AllEventActs(events) == Callbacks(poll)
      ensures old(pendingFunctors) <= pendingFunctors && (old(quit) ==> quit)
    {
      Others();
      ghost var s := View();
      ActiveCallbacks(poll, eventFd);
      events := poll.Active(eventFd);
      pc := Dispatching(events);
      Record(s, Poll(events));
    }

    ghost function Now(): Progress
      reads this
    {
      Progress(own, executed, pendingFunctors)
    }

    /** One round of loop(): poll, the active channels' callbacks, the pending functors. */
    method Round(poll: PollResult) returns (functors: seq<Functor>)
      requires Tracked() && pc == AtPoll && View().Idle() && batch == []
      modifies this
      ensures Tracked() && pc == Checking && View().Idle() && batch == [] && !callingPendingFunctors
      ensures OneRound(old(Now()), poll, functors, Now()) && (old(quit) ==> quit)
    {
      var activeChannels := DoPoll(poll);
      HandleEvents(activeChannels);
      functors := DoPendingFunctors();
      Assoc(old(own), QueuedBy(Callbacks(poll)), QueuedBy(AllActs(functors)));
    }

    /** The test of quit_, and another round unless it is set. */
    method TryRound(poll: PollResult) returns (stopped: bool, functors: seq<Functor>)
      requires Tracked() && pc == Checking && View().Idle() && batch == [] && !callingPendingFunctors
      modifies this
      ensures Tracked() && View().Idle() && batch == [] && !callingPendingFunctors
      ensures pc == (if stopped then Outside else Checking) && (stopped ==> quit) && (old(quit) ==> stopped)
      ensures stopped ==> own == old(own) && executed == old(executed) && old(pendingFunctors) <= pendingFunctors
      ensures !stopped ==> OneRound(old(Now()), poll, functors, Now())
    {
      functors := [];
      stopped := TestQuit();
      if !stopped {
        functors := Round(poll);
      }
    }

    /**
     * loop(), for as many rounds as there are poll results. In each the reported channels' callbacks and then the pass
     * have run; what was pending at the start is in the first pass.
     */
    method Loop(polls: seq<PollResult>) returns (rounds: nat, stopped: bool, ghost passes: seq<seq<Functor>>)
      requires Tracked() && View().AtEntry()
      modifies this
      ensures Tracked() && View().Idle() && batch == [] && !callingPendingFunctors
      ensures rounds <= |polls| && (!stopped ==> rounds == |polls|)
      ensures pc == (if stopped then Outside else Checking) && (stopped ==> quit)
      ensures Rounds(old(Now()), polls[..rounds], passes, Now())
    {
      EnterLoop();
      rounds, stopped, passes := 0, false, [];
      NoRounds(old(Now()), Now());
      while !stopped && rounds < |polls|
        invariant pc == (if stopped then Outside else Checking) && rounds <= |polls| && (stopped ==> quit)
        invariant Tracked() && View().Idle() && batch == [] && !callingPendingFunctors
        invariant |passes| == rounds && Rounds(old(Now()), polls[..rounds], passes, Now())
        decreases !stopped, |polls| - rounds
      {
        ghost var mid := Now();
        var pass;
        stopped, pass := TryRound(polls[rounds]);
        if stopped {
          StillRounds(old(Now()), polls[..rounds], passes, mid, Now());
        } else {
          OneMoreRound(old(Now()), polls, passes, mid, pass, Now());
          rounds, passes := rounds + 1, passes + [pass];
        }
      }
    }

    method EnterLoop()
      requires Tracked() && pc == Outside && View().Idle()
      modifies this`pendingFunctors, this`quit, this`eventFd, this`owing, this`point, this`queued, this`trace
      modifies this`pc
      ensures point == old(point) + 1
      ensures Tracked() && pc == Checking && !quit && old(pendingFunctors) <= pendingFunctors
    {
      Others();
      ghost var s := View();
      quit := false;
      pc := Checking;
      Record(s, Enter);
    }
  }
}
