/** The output side of a connection and its graceful shutdown: wf_tcp_connection.h and wf_tcp_connection.cc. */
module TcpConnections {
  import opened Strings
  import opened Buffers
  import opened PollPollers

  datatype Phase = Connecting | Connected | Disconnecting | Disconnected

  /** What a call from another thread queues in the loop. */
  datatype Task = SendTask(message: string) | ShutdownTask

  /**
   * A connection's output side. `calling` holds what other threads in send or shutdown have yet to queue, `queue` what
   * they have queued. `wire` is what write() has taken, `accepted` the messages sendInLoop took on, `fins` the calls
   * of shutdownWrite, `completions` the write-complete callbacks queued.
   */
  datatype Conn = Conn(
    phase: Phase, output: string, reading: bool, writing: bool, notify: bool, calling: seq<Task>, queue: seq<Task>,
    wire: string, accepted: seq<string>, fins: nat, completions: nat)
  {
    function Completed(): Conn {
      if notify then this.(completions := completions + 1) else this
    }

    /** A shutdownInLoop is on its way. */
    predicate Asked() {
      ShutdownTask in calling || ShutdownTask in queue
    }
  }

  function NewConn(notify: bool): Conn {
    Conn(Connecting, "", true, false, notify, [], [], "", [], 0, 0)
  }

  /**
   * A call on the loop's thread, with what write() returns in it; or another thread's call up to the test of state_,
   * that thread's push, and the loop running what was pushed.
   */
  datatype Step =
    | Establish
    | Send(message: string, wrote: int)
    | HandleWrite(wrote: int)
    | Shutdown
    | Destroy
    | ForeignSend(message: string)
    | ForeignShutdown
    | Push(i: nat)
    | LateSend(wrote: int)
    | LateShutdown

  /** The queued message that runs next. */
  predicate SendIsNext(c: Conn) {
    c.queue != [] && c.queue[0].SendTask?
  }

  /** write() takes no more than it is given; where the code may call it on a shut write side, it fails. */
  ghost predicate Enabled(c: Conn, a: Step) {
    match a
    case Establish => c.phase == Connecting
    case Send(message, wrote) => wrote <= |message|
    case HandleWrite(wrote) => wrote <= |c.output|
    case Destroy => c.phase == Connected || c.phase == Disconnecting
    case Push(i) => i < |c.calling|
    case LateSend(wrote) => SendIsNext(c) && wrote <= |c.queue[0].message| && (c.fins > 0 ==> wrote < 0)
    case LateShutdown => c.queue != [] && c.queue[0] == ShutdownTask
    case _ => true
  }

  /** The guards in front of each write(). */
  predicate CallsWrite(c: Conn, a: Step) {
    match a
    case Send(_, _) => c.phase == Connected && !c.writing && c.output == ""
    case LateSend(_) => !c.writing && c.output == ""
    case HandleWrite(_) => c.writing
    case _ => false
  }

  /** sendInLoop: a message is dropped while output is pending, and when write() fails. */
  function SentInLoop(c: Conn, message: string, wrote: int): Conn
    requires wrote <= |message|
  {
    if c.writing || c.output != "" || wrote < 0 then c
    else
      var taken := c.(wire := c.wire + message[..wrote], accepted := c.accepted + [message]);
      if wrote < |message| then taken.(output := message[wrote..], writing := true) else taken.Completed()
  }

  function ShutInLoop(c: Conn): Conn {
    if c.writing then c else c.(fins := c.fins + 1)
  }

  function Drained(c: Conn, wrote: int): Conn
    requires wrote <= |c.output|
  {
    if !c.writing || wrote <= 0 then c
    else
      var taken := c.(wire := c.wire + c.output[..wrote], output := c.output[wrote..]);
      if taken.output != "" then taken
      else
        var done := taken.(writing := false).Completed();
        if c.phase == Disconnecting then ShutInLoop(done) else done
  }

  function Without(tasks: seq<Task>, i: nat): seq<Task>
    requires i < |tasks|
  {
    tasks[..i] + tasks[i + 1..]
  }

  function Next(c: Conn, a: Step): Conn
    requires Enabled(c, a)
  {
    match a
    case Establish => c.(phase := Connected, reading := true)
    case Send(message, wrote) => if c.phase == Connected then SentInLoop(c, message, wrote) else c
    case HandleWrite(wrote) => Drained(c, wrote)
    case Shutdown => if c.phase == Connected then ShutInLoop(c.(phase := Disconnecting)) else c
    case Destroy => c.(phase := Disconnected)
    case ForeignSend(message) =>
      if c.phase == Connected then c.(calling := c.calling + [SendTask(message)]) else c
    case ForeignShutdown =>
      if c.phase == Connected then c.(phase := Disconnecting, calling := c.calling + [ShutdownTask]) else c
    case Push(i) => c.(queue := c.queue + [c.calling[i]], calling := Without(c.calling, i))
    case LateSend(wrote) => SentInLoop(c.(queue := c.queue[1..]), c.queue[0].message, wrote)
    case LateShutdown => ShutInLoop(c.(queue := c.queue[1..]))
  }

  ghost predicate LegalRun(c: Conn, run: seq<Step>)
    decreases |run|
  {
    run != [] ==> Enabled(c, run[0]) && LegalRun(Next(c, run[0]), run[1..])
  }

  function After(c: Conn, run: seq<Step>): Conn
    requires LegalRun(c, run)
    decreases |run|
  {
    if run == [] then c else After(Next(c, run[0]), run[1..])
  }

  // ---- Conservation ----

  /** Bytes written, then bytes buffered, are the accepted messages; writing is watched for while bytes wait. */
  ghost predicate Conserved(c: Conn) {
    c.wire + c.output == Flatten(c.accepted) && (c.writing <==> c.output != "")
  }

  lemma ConservedStep(c: Conn, a: Step)
    requires Conserved(c) && Enabled(c, a)
    ensures Conserved(Next(c, a))
  {
    match a {
      case Send(message, wrote) =>
        ConservedSend(c, message, wrote);
      case LateSend(wrote) =>
        ConservedSend(c.(queue := c.queue[1..]), c.queue[0].message, wrote);
      case HandleWrite(wrote) =>
        if wrote > 0 {
          assert c.wire + c.output == c.wire + c.output[..wrote] + c.output[wrote..];
        }
      case _ =>
    }
  }

  lemma ConservedSend(c: Conn, message: string, wrote: int)
    requires Conserved(c) && wrote <= |message|
    ensures Conserved(SentInLoop(c, message, wrote))
  {
    if wrote >= 0 {
      FlattenAppend(c.accepted, message);
      assert c.wire + message == c.wire + message[..wrote] + message[wrote..];
    }
  }

  /** No byte of an accepted message is lost, repeated or reordered, for every pattern of partial writes. */
  lemma {:induction false} OutputConservation(c: Conn, run: seq<Step>)
    requires Conserved(c) && LegalRun(c, run)
    ensures Conserved(After(c, run))
    decreases |run|
  {
    if run != [] {
      ConservedStep(c, run[0]);
      OutputConservation(Next(c, run[0]), run[1..]);
    }
  }

  /**
   * The write-complete callback is queued exactly by the steps that leave nothing to write: those that take on a
   * message whole, and those that drain what was buffered.
   */
  lemma CompletionsAreExact(c: Conn, a: Step)
    requires Conserved(c) && Enabled(c, a)
    ensures var n := Next(c, a);
            n.completions == c.completions +
            if c.notify && n.output == "" && (c.output != "" || n.accepted != c.accepted) then 1 else 0
  {
  }

  /** Each step puts on the wire as many bytes as the write() it calls takes. */
  lemma WrittenExactly(c: Conn, a: Step)
    requires Conserved(c) && Enabled(c, a)
    ensures var wrote := if a.Send? || a.LateSend? || a.HandleWrite? then a.wrote else 0;
            |Next(c, a).wire| == |c.wire| + if CallsWrite(c, a) && wrote > 0 then wrote else 0
    ensures c.wire <= Next(c, a).wire
  {
  }

  /** The connection is read from as long as it lives: what should stop that sets no bits. */
  lemma AlwaysReads(notify: bool, run: seq<Step>)
    requires LegalRun(NewConn(notify), run)
    ensures After(NewConn(notify), run).reading
  {
    ReadsOn(NewConn(notify), run);
  }

  lemma {:induction false} ReadsOn(c: Conn, run: seq<Step>)
    requires c.reading && LegalRun(c, run)
    ensures After(c, run).reading
    decreases |run|
  {
    if run != [] {
      ReadsOn(Next(c, run[0]), run[1..]);
    }
  }

  // ---- The connection's states ----

  predicate Closes(a: Step) {
    a == Shutdown || a == ForeignShutdown || a == Destroy
  }

  /** A connected connection is left as it is until it is shut down or destroyed, and ends with the latter. */
  lemma {:induction false} PhaseOfConnected(c: Conn, run: seq<Step>)
    requires c.phase == Connected && LegalRun(c, run)
    ensures var e := After(c, run);
            && (e.phase == Connected <==> forall a :: a in run ==> !Closes(a))
            && (e.phase == Disconnected <==> Destroy in run)
            && e.phase != Connecting
    decreases |run|
  {
    if run != [] {
      assert run == [run[0]] + run[1..];
      if Closes(run[0]) {
        PhaseOfClosing(Next(c, run[0]), run[1..]);
      } else {
        PhaseOfConnected(Next(c, run[0]), run[1..]);
      }
    }
  }

  /** One that is shut down stays so until it is destroyed. */
  lemma {:induction false} PhaseOfClosing(c: Conn, run: seq<Step>)
    requires (c.phase == Disconnecting || c.phase == Disconnected) && LegalRun(c, run)
    ensures After(c, run).phase == if Destroy in run then Disconnected else c.phase
    decreases |run|
  {
    if run != [] {
      assert run == [run[0]] + run[1..];
      PhaseOfClosing(Next(c, run[0]), run[1..]);
    }
  }

  /** One that is new becomes connected by connectEstablished alone. */
  lemma {:induction false} PhaseOfNew(c: Conn, run: seq<Step>)
    requires c.phase == Connecting && LegalRun(c, run)
    ensures After(c, run).phase == Connecting <==> Establish !in run
    ensures run != [] && run[0] == Establish ==> Next(c, Establish).phase == Connected
    decreases |run|
  {
    if run != [] {
      assert run == [run[0]] + run[1..];
      if run[0] == Establish {
        PhaseOfConnected(Next(c, Establish), run[1..]);
      } else {
        PhaseOfNew(Next(c, run[0]), run[1..]);
      }
    }
  }

  // ---- Graceful shutdown ----

  /**
   * The write side is not shut before every accepted byte is on the wire, and is shut or about to be as soon as that
   * is so in kDisconnecting.
   */
  ghost predicate Graceful(c: Conn) {
    && Conserved(c)
    && (c.fins > 0 || c.Asked() ==> c.phase == Disconnecting || c.phase == Disconnected)
    && (c.fins > 0 ==> c.wire == Flatten(c.accepted))
    && (c.phase == Disconnecting && c.output == "" ==> c.fins > 0 || c.Asked())
  }

  lemma ShutMeansDrained(c: Conn)
    requires Graceful(c) && c.fins > 0
    ensures c.output == "" && !c.writing
  {
  }

  lemma WithoutOne(tasks: seq<Task>, i: nat)
    requires i < |tasks|
    ensures multiset(Without(tasks, i)) + multiset{tasks[i]} == multiset(tasks)
    ensures forall t :: t in tasks <==> t in Without(tasks, i) || t == tasks[i]
  {
    assert tasks == tasks[..i] + [tasks[i]] + tasks[i + 1..];
    assert multiset(tasks) == multiset(tasks[..i]) + multiset{tasks[i]} + multiset(tasks[i + 1..]);
  }

  /** Queueing and running tasks leaves a shutdown on its way, unless it is the one that runs. */
  lemma AskedStep(c: Conn, a: Step)
    requires Enabled(c, a) && (a.Push? || a.LateSend? || a.LateShutdown?)
    ensures Next(c, a).Asked() || a.LateShutdown? <==> c.Asked()
  {
    if a.Push? {
      WithoutOne(c.calling, a.i);
    } else {
      assert c.queue == [c.queue[0]] + c.queue[1..];
    }
  }

  lemma GracefulSend(c: Conn, message: string, wrote: int)
    requires Graceful(c) && wrote <= |message| && (c.fins > 0 ==> wrote < 0)
    ensures Graceful(SentInLoop(c, message, wrote))
  {
    ConservedSend(c, message, wrote);
  }

  lemma GracefulStep(c: Conn, a: Step)
    requires Graceful(c) && Enabled(c, a)
    ensures Graceful(Next(c, a))
  {
    ConservedStep(c, a);
    var n := Next(c, a);
    if c.fins > 0 {
      ShutMeansDrained(c);
    }
    if n.output == "" {
      assert n.wire + n.output == n.wire;
    }
    if a.Push? || a.LateSend? || a.LateShutdown? {
      AskedStep(c, a);
    }
  }

  /** That holds throughout, whatever other threads send and whoever shuts down. */
  lemma {:induction false} GracefulShutdown(c: Conn, run: seq<Step>)
    requires Graceful(c) && LegalRun(c, run)
    ensures Graceful(After(c, run))
    decreases |run|
  {
    if run != [] {
      GracefulStep(c, run[0]);
      GracefulShutdown(Next(c, run[0]), run[1..]);
    }
  }

  /** A shutdown on the loop's thread shuts the write side at once, unless bytes wait to be written. */
  lemma ShutdownStarts(c: Conn)
    requires Graceful(c) && c.phase == Connected
    ensures var n := Next(c, Shutdown);
            n.phase == Disconnecting && !n.Asked() && (n.fins > 0 <==> c.output == "")
  {
  }

  /** And if they wait, as soon as they are written: whatever comes short of destruction. */
  lemma {:induction false} ShutdownFinishes(c: Conn, run: seq<Step>)
    requires Graceful(c) && c.phase == Disconnecting && !c.Asked() && LegalRun(c, run) && Destroy !in run
    ensures var e := After(c, run); e.phase == Disconnecting && (e.output == "" ==> e.fins > 0)
    decreases |run|
  {
    if run != [] {
      GracefulStep(c, run[0]);
      if run[0].Push? || run[0].LateSend? || run[0].LateShutdown? {
        AskedStep(c, run[0]);
      }
      assert run == [run[0]] + run[1..];
      ShutdownFinishes(Next(c, run[0]), run[1..]);
    }
  }

  /** A shutdown from another thread does, when its own task is run at the latest. */
  lemma ForeignShutdownFinishes(c: Conn, run: seq<Step>)
    requires Graceful(c) && c.phase == Connected && LegalRun(Next(c, ForeignShutdown), run) && Destroy !in run
    ensures var e := After(Next(c, ForeignShutdown), run);
            e.phase == Disconnecting && (e.output == "" && !e.Asked() ==> e.fins > 0)
  {
    GracefulStep(c, ForeignShutdown);
    GracefulShutdown(Next(c, ForeignShutdown), run);
    PhaseOfClosing(Next(c, ForeignShutdown), run);
  }

  /** Once the write side is shut, a step calls write() if and only if it runs a send another thread had queued. */
  lemma OnlyLateSendsWrite(c: Conn, a: Step)
    requires Graceful(c) && c.fins > 0 && Enabled(c, a)
    ensures CallsWrite(c, a) <==> a.LateSend?
  {
    ShutMeansDrained(c);
  }

  ghost predicate NoWrites(c: Conn, run: seq<Step>)
    requires LegalRun(c, run)
    decreases |run|
  {
    run != [] ==> !CallsWrite(c, run[0]) && NoWrites(Next(c, run[0]), run[1..])
  }

  /** After the write side is shut write() is called again, if and only if such a send is run. */
  lemma {:induction false} NoWritesAfterShut(c: Conn, run: seq<Step>)
    requires Graceful(c) && c.fins > 0 && LegalRun(c, run)
    ensures NoWrites(c, run) <==> forall a :: a in run ==> !a.LateSend?
    decreases |run|
  {
    if run != [] {
      GracefulStep(c, run[0]);
      OnlyLateSendsWrite(c, run[0]);
      NoWritesAfterShut(Next(c, run[0]), run[1..]);
      assert run == [run[0]] + run[1..];
    }
  }

  lemma NothingTakenAfterShut(c: Conn, a: Step)
    requires Graceful(c) && c.fins > 0 && Enabled(c, a)
    ensures var n := Next(c, a); n.wire == c.wire && n.accepted == c.accepted && n.fins > 0
  {
    ShutMeansDrained(c);
  }

  /** And as that write() fails, nothing more is taken on or written. */
  lemma {:induction false} WireIsFinal(c: Conn, run: seq<Step>)
    requires Graceful(c) && c.fins > 0 && LegalRun(c, run)
    ensures var e := After(c, run);
            e.wire == c.wire == Flatten(c.accepted) && e.accepted == c.accepted && e.fins > 0
    decreases |run|
  {
    if run != [] {
      GracefulStep(c, run[0]);
      NothingTakenAfterShut(c, run[0]);
      WireIsFinal(Next(c, run[0]), run[1..]);
    }
  }

  // ---- Shut once or twice ----

  /** A step shuts a write side that is shut already, if and only if it is a queued shutdownInLoop. */
  lemma ShutAgain(c: Conn, a: Step)
    requires Graceful(c) && c.fins > 0 && Enabled(c, a)
    ensures Next(c, a).fins > c.fins <==> a.LateShutdown?
  {
    ShutMeansDrained(c);
  }

  /** So it is shut at most once when every shutdown comes from the loop's thread. */
  lemma {:induction false} ShutOnce(c: Conn, run: seq<Step>)
    requires Graceful(c) && c.fins <= 1 && !c.Asked() && LegalRun(c, run) && ForeignShutdown !in run
    ensures After(c, run).fins <= 1
    decreases |run|
  {
    if run != [] {
      var a := run[0];
      assert a != ForeignShutdown;
      GracefulStep(c, a);
      if a.Push? || a.LateSend? || a.LateShutdown? {
        AskedStep(c, a);
      }
      if c.fins == 1 {
        ShutAgain(c, a);
      }
      ShutOnce(Next(c, a), run[1..]);
    }
  }

  ghost predicate MayShutTwice(c: Conn) {
    exists run :: LegalRun(c, run) && After(c, run).fins >= 2
  }

  lemma TwiceNow(c: Conn)
    requires c.fins >= 2
    ensures MayShutTwice(c)
  {
    assert LegalRun(c, []) && After(c, []) == c;
  }

  lemma TwiceLater(c: Conn, a: Step)
    requires Enabled(c, a) && MayShutTwice(Next(c, a))
    ensures MayShutTwice(c)
  {
    var n := Next(c, a);
    var run :| LegalRun(n, run) && After(n, run).fins >= 2;
    assert ([a] + run)[1..] == run;
    assert LegalRun(c, [a] + run) && After(c, [a] + run) == After(n, run);
  }

  /** Shut once, with another shutdownInLoop in the queue. */
  lemma {:induction false} QueuedShutdownShuts(c: Conn)
    requires c.fins >= 1 && !c.writing && c.output == "" && ShutdownTask in c.queue
    ensures MayShutTwice(c)
    decreases |c.queue|
  {
    assert c.queue == [c.queue[0]] + c.queue[1..];
    if c.queue[0] == ShutdownTask {
      TwiceNow(Next(c, LateShutdown));
      TwiceLater(c, LateShutdown);
    } else {
      QueuedShutdownShuts(Next(c, LateSend(-1)));
      TwiceLater(c, LateSend(-1));
    }
  }

  /** Output waits while a foreign shutdown has yet to queue its task: draining shuts, and so does the task. */
  lemma DrainedBeforeTask(c: Conn)
    requires Conserved(c) && c.phase == Disconnecting && c.output != "" && ShutdownTask in c.calling
    ensures MayShutTwice(c)
  {
    var drain := HandleWrite(|c.output|);
    var d := Next(c, drain);
    var i :| 0 <= i < |c.calling| && c.calling[i] == ShutdownTask;
    QueuedShutdownShuts(Next(d, Push(i)));
    TwiceLater(d, Push(i));
    TwiceLater(c, drain);
  }

  /** A message to be sent, with bytes in it. */
  predicate HasBytes(t: Task) {
    t.SendTask? && t.message != ""
  }

  lemma {:induction false} QueuedSendThenShuts(c: Conn)
    requires Conserved(c) && c.phase == Disconnecting && c.output == "" && c.fins == 0
    requires ShutdownTask in c.calling && ShutdownTask !in c.queue && exists t :: t in c.queue && HasBytes(t)
    ensures MayShutTwice(c)
    decreases |c.queue|
  {
    assert c.queue == [c.queue[0]] + c.queue[1..];
    if HasBytes(c.queue[0]) {
      ConservedStep(c, LateSend(0));
      DrainedBeforeTask(Next(c, LateSend(0)));
      TwiceLater(c, LateSend(0));
    } else {
      QueuedSendThenShuts(Next(c, LateSend(-1)));
      TwiceLater(c, LateSend(-1));
    }
  }

  /** Bytes wait to be written, or a message with bytes is on its way to the loop. */
  ghost predicate Outstanding(c: Conn) {
    c.output != "" || exists t :: (t in c.calling || t in c.queue) && HasBytes(t)
  }

  lemma OutstandingThenTwice(c: Conn)
    requires Graceful(c) && c.phase == Connected && Outstanding(c)
    ensures MayShutTwice(Next(c, ForeignShutdown))
  {
    var d := Next(c, ForeignShutdown);
    assert d.calling[|c.calling|] == ShutdownTask;
    if c.output != "" {
      DrainedBeforeTask(d);
    } else {
      var t :| (t in c.calling || t in c.queue) && HasBytes(t);
      if t in c.queue {
        QueuedSendThenShuts(d);
      } else {
        var i :| 0 <= i < |c.calling| && c.calling[i] == t;
        assert d.calling[i] == t;
        WithoutOne(d.calling, i);
        QueuedSendThenShuts(Next(d, Push(i)));
        TwiceLater(d, Push(i));
      }
    }
  }

  /** No more than one shutdown, done or to come, and nothing that could delay it. */
  ghost predicate Once(c: Conn) {
    && Graceful(c) && (c.phase == Disconnecting || c.phase == Disconnected)
    && c.fins + Shutdowns(c) <= 1
    && (c.Asked() ==> !Outstanding(c))
  }

  function Shutdowns(c: Conn): nat {
    multiset(c.calling)[ShutdownTask] + multiset(c.queue)[ShutdownTask]
  }

  lemma AskedCounts(c: Conn)
    ensures c.Asked() <==> Shutdowns(c) > 0
  {
  }

  lemma OncePush(c: Conn, i: nat)
    requires Once(c) && i < |c.calling|
    ensures Once(Next(c, Push(i)))
  {
    var n := Next(c, Push(i));
    GracefulStep(c, Push(i));
    WithoutOne(c.calling, i);
    AskedStep(c, Push(i));
    assert Shutdowns(n) == Shutdowns(c);
  }

  lemma QueueHead(c: Conn)
    requires c.queue != []
    ensures var rest := c.(queue := c.queue[1..]);
            && Shutdowns(c) == Shutdowns(rest) + (if c.queue[0] == ShutdownTask then 1 else 0)
            && (Outstanding(rest) ==> Outstanding(c))
  {
    assert c.queue == [c.queue[0]] + c.queue[1..];
    assert multiset(c.queue) == multiset{c.queue[0]} + multiset(c.queue[1..]);
  }

  lemma OnceLateSend(c: Conn, wrote: int)
    requires Once(c) && Enabled(c, LateSend(wrote))
    ensures Once(Next(c, LateSend(wrote)))
  {
    GracefulStep(c, LateSend(wrote));
    QueueHead(c);
    AskedStep(c, LateSend(wrote));
    var n := Next(c, LateSend(wrote));
    assert c.queue[0] in c.queue;
    assert c.Asked() ==> c.queue[0].message == "" && n.output == "";
  }

  lemma OnceLateShutdown(c: Conn)
    requires Once(c) && Enabled(c, LateShutdown)
    ensures Once(Next(c, LateShutdown))
  {
    GracefulStep(c, LateShutdown);
    QueueHead(c);
    AskedCounts(Next(c, LateShutdown));
  }

  lemma OnceStep(c: Conn, a: Step)
    requires Once(c) && Enabled(c, a)
    ensures Once(Next(c, a))
  {
    GracefulStep(c, a);
    match a {
      case Push(i) =>
        OncePush(c, i);
      case LateSend(wrote) =>
        OnceLateSend(c, wrote);
      case LateShutdown =>
        OnceLateShutdown(c);
      case HandleWrite(wrote) =>
        AskedCounts(c);
        if c.fins > 0 {
          ShutMeansDrained(c);
        }
      case _ =>
    }
  }

  lemma {:induction false} OnceRun(c: Conn, run: seq<Step>)
    requires Once(c) && LegalRun(c, run)
    ensures After(c, run).fins <= 1
    decreases |run|
  {
    if run != [] {
      OnceStep(c, run[0]);
      OnceRun(Next(c, run[0]), run[1..]);
    }
  }

  /**
   * A shutdown of a connected connection can come to shut twice, if and only if it is called from another thread
   * while bytes wait to be written or a message with bytes is on its way to the loop.
   */
  lemma ShutTwiceExactly(c: Conn, a: Step)
    requires Graceful(c) && c.phase == Connected && (a == Shutdown || a == ForeignShutdown)
    ensures MayShutTwice(Next(c, a)) <==> a == ForeignShutdown && Outstanding(c)
  {
    if a == ForeignShutdown && Outstanding(c) {
      OutstandingThenTwice(c);
    } else {
      var n := Next(c, a);
      GracefulStep(c, a);
      AskedCounts(c);
      assert a == ForeignShutdown ==> multiset(n.calling) == multiset(c.calling) + multiset{ShutdownTask};
      assert Once(n);
      forall run | LegalRun(n, run) ensures After(n, run).fins <= 1 {
        OnceRun(n, run);
      }
    }
  }

  // ---- Messages sent and messages taken on ----

  /** The messages a run passes to send. */
  function Sent(run: seq<Step>): seq<string> {
    if run == [] then []
    else
      (match run[0]
       case Send(message, _) => [message]
       case ForeignSend(message) => [message]
       case _ => []) + Sent(run[1..])
  }

  /** The message a step decides over: one that reaches sendInLoop, or that send turns away. */
  function Decided(c: Conn, a: Step): seq<string>
    requires Enabled(c, a)
  {
    match a
    case Send(message, _) => [message]
    case ForeignSend(message) => if c.phase == Connected then [] else [message]
    case LateSend(_) => [c.queue[0].message]
    case _ => []
  }

  ghost function AllDecided(c: Conn, run: seq<Step>): seq<string>
    requires LegalRun(c, run)
    decreases |run|
  {
    if run == [] then [] else Decided(c, run[0]) + AllDecided(Next(c, run[0]), run[1..])
  }

  /** What a send has to meet: a connected connection, nothing waiting to be written, and a write() that succeeds. */
  predicate Meets(c: Conn, a: Step) {
    match a
    case Send(_, wrote) => c.phase == Connected && c.output == "" && wrote >= 0
    case ForeignSend(_) => c.phase == Connected
    case LateSend(wrote) => c.output == "" && wrote >= 0
    case _ => true
  }

  ghost predicate AllMeet(c: Conn, run: seq<Step>)
    requires LegalRun(c, run)
    decreases |run|
  {
    run != [] ==> Meets(c, run[0]) && AllMeet(Next(c, run[0]), run[1..])
  }

  lemma TakenOrNot(c: Conn, a: Step)
    requires Conserved(c) && Enabled(c, a)
    ensures Next(c, a).accepted == c.accepted + if Meets(c, a) then Decided(c, a) else []
    ensures !Meets(c, a) ==> |Decided(c, a)| == 1
  {
  }

  /** No run takes on more messages than it decides over; as many just when every send meets its conditions. */
  lemma {:induction false} TakenCount(c: Conn, run: seq<Step>)
    requires Conserved(c) && LegalRun(c, run)
    ensures |After(c, run).accepted| <= |c.accepted| + |AllDecided(c, run)|
    ensures |After(c, run).accepted| == |c.accepted| + |AllDecided(c, run)| <==> AllMeet(c, run)
    decreases |run|
  {
    if run != [] {
      ConservedStep(c, run[0]);
      TakenOrNot(c, run[0]);
      TakenCount(Next(c, run[0]), run[1..]);
    }
  }

  lemma {:induction false} TakenInOrder(c: Conn, run: seq<Step>)
    requires Conserved(c) && LegalRun(c, run) && AllMeet(c, run)
    ensures After(c, run).accepted == c.accepted + AllDecided(c, run)
    decreases |run|
  {
    if run != [] {
      ConservedStep(c, run[0]);
      TakenOrNot(c, run[0]);
      TakenInOrder(Next(c, run[0]), run[1..]);
    }
  }

  /** Every message decided over is taken on, in order, if and only if every send meets its conditions. */
  lemma NothingDropped(c: Conn, run: seq<Step>)
    requires Conserved(c) && LegalRun(c, run)
    ensures After(c, run).accepted == c.accepted + AllDecided(c, run) <==> AllMeet(c, run)
  {
    TakenCount(c, run);
    if AllMeet(c, run) {
      TakenInOrder(c, run);
    }
  }

  /** How often a message is in a list. */
  function Times(m: string, messages: seq<string>): nat {
    if messages == [] then 0 else (if messages[0] == m then 1 else 0) + Times(m, messages[1..])
  }

  function TimesQueued(m: string, tasks: seq<Task>): nat {
    if tasks == [] then 0 else (if tasks[0] == SendTask(m) then 1 else 0) + TimesQueued(m, tasks[1..])
  }

  /** How often it is on its way to the loop. */
  function Underway(m: string, c: Conn): nat {
    TimesQueued(m, c.calling) + TimesQueued(m, c.queue)
  }

  lemma {:induction false} TimesConcat(m: string, a: seq<string>, b: seq<string>)
    ensures Times(m, a + b) == Times(m, a) + Times(m, b)
  {
    if a == [] {
      assert a + b == b;
    } else {
      assert (a + b)[1..] == a[1..] + b;
      TimesConcat(m, a[1..], b);
    }
  }

  lemma {:induction false} QueuedConcat(m: string, a: seq<Task>, b: seq<Task>)
    ensures TimesQueued(m, a + b) == TimesQueued(m, a) + TimesQueued(m, b)
  {
    if a == [] {
      assert a + b == b;
    } else {
      assert (a + b)[1..] == a[1..] + b;
      QueuedConcat(m, a[1..], b);
    }
  }

  lemma QueuedOneMore(m: string, tasks: seq<Task>, t: Task)
    ensures TimesQueued(m, tasks + [t]) == TimesQueued(m, tasks) + if t == SendTask(m) then 1 else 0
  {
    QueuedConcat(m, tasks, [t]);
    assert [t][1..] == [];
  }

  lemma QueuedWithout(m: string, tasks: seq<Task>, i: nat)
    requires i < |tasks|
    ensures TimesQueued(m, tasks) == TimesQueued(m, Without(tasks, i)) + if tasks[i] == SendTask(m) then 1 else 0
  {
    assert tasks == (tasks[..i] + [tasks[i]]) + tasks[i + 1..];
    QueuedConcat(m, tasks[..i] + [tasks[i]], tasks[i + 1..]);
    QueuedOneMore(m, tasks[..i], tasks[i]);
    QueuedConcat(m, tasks[..i], tasks[i + 1..]);
  }

  lemma StepAccounts(m: string, c: Conn, a: Step)
    requires Enabled(c, a)
    ensures Times(m, Decided(c, a)) + Underway(m, Next(c, a)) == Underway(m, c) + Times(m, Sent([a]))
  {
    assert [a][1..] == [];
    match a {
      case ForeignSend(message) =>
        QueuedOneMore(m, c.calling, SendTask(message));
      case ForeignShutdown =>
        QueuedOneMore(m, c.calling, ShutdownTask);
      case Push(i) =>
        QueuedWithout(m, c.calling, i);
        QueuedOneMore(m, c.queue, c.calling[i]);
      case _ =>
    }
  }

  /** Every message sent is decided over, once for each time it was sent, or still on its way to the loop. */
  lemma {:induction false} SentOrUnderway(m: string, c: Conn, run: seq<Step>)
    requires LegalRun(c, run)
    ensures Times(m, AllDecided(c, run)) + Underway(m, After(c, run)) == Underway(m, c) + Times(m, Sent(run))
    decreases |run|
  {
    if run != [] {
      var a, n := run[0], Next(c, run[0]);
      assert [a][1..] == [] && Sent(run) == Sent([a]) + Sent(run[1..]);
      StepAccounts(m, c, a);
      SentOrUnderway(m, n, run[1..]);
      TimesConcat(m, Decided(c, a), AllDecided(n, run[1..]));
      TimesConcat(m, Sent([a]), Sent(run[1..]));
    }
  }

  /** On the loop's thread alone the messages decided over are those sent, in order. */
  lemma {:induction false} DecidedOnLoop(c: Conn, run: seq<Step>)
    requires LegalRun(c, run) && forall a :: a in run ==> !a.ForeignSend? && !a.LateSend?
    ensures AllDecided(c, run) == Sent(run)
    decreases |run|
  {
    if run != [] {
      assert run[0] in run && forall a :: a in run[1..] ==> a in run;
      DecidedOnLoop(Next(c, run[0]), run[1..]);
    }
  }

  /** A message sent while another is half written is dropped, though write() never failed. */
  lemma SecondSendDropped()
    ensures var run := [Establish, Send("ab", 1), Send("c", 1), HandleWrite(1)];
            && LegalRun(NewConn(true), run) && Sent(run) == ["ab", "c"]
            && After(NewConn(true), run).accepted == ["ab"] && After(NewConn(true), run).wire == "ab"
  {
    var c := Next(Next(NewConn(true), Establish), Send("ab", 1));
    assert c == Conn(Connected, "b", true, true, true, [], [], "a", ["ab"], 0, 0);
    assert Next(c, HandleWrite(1)) == Conn(Connected, "", true, false, true, [], [], "ab", ["ab"], 0, 1);
  }

  /** With a write-complete callback, one is due for every message taken on but the one still being written. */
  ghost predicate Paced(c: Conn) {
    Conserved(c) && (c.notify ==> c.completions + (if c.output == "" then 0 else 1) == |c.accepted|)
  }

  /** So a caller who waits until there were as many callbacks as messages taken on sends into an empty buffer. */
  lemma {:induction false} CallbacksPaceSends(c: Conn, run: seq<Step>)
    requires Paced(c) && c.notify && LegalRun(c, run)
    ensures var e := After(c, run); e.output == "" <==> e.completions == |e.accepted|
    ensures Paced(After(c, run)) && After(c, run).notify
    decreases |run|
  {
    if run != [] {
      ConservedStep(c, run[0]);
      CompletionsAreExact(c, run[0]);
      TakenOrNot(c, run[0]);
      CallbacksPaceSends(Next(c, run[0]), run[1..]);
    }
  }

  // ---- The class ----

  /** `wrote` is what write() returns in a call; `queue` is this connection's share of its loop. */
  class TcpConnection {
    var phase: Phase
    const channel: Channel
    const outputBuffer: Buffer
    const notify: bool
    var queue: seq<Task>
    ghost var calling: seq<Task>
    ghost var wire: string
    ghost var accepted: seq<string>
    ghost var fins: nat
    ghost var completions: nat

    ghost predicate Valid()
      reads this, channel, outputBuffer, outputBuffer.storage
    {
      outputBuffer.Valid() && Graceful(View())
    }

    ghost function View(): Conn
      requires outputBuffer.Valid()
      reads this, channel, outputBuffer, outputBuffer.storage
    {
      Conn(phase, outputBuffer.Contents(), READ_EVENT <= channel.events, channel.IsWriting(), notify, calling, queue,
           wire, accepted, fins, completions)
    }

    ghost function Touched(): set<object>
      reads this, outputBuffer
    {
      {this, channel, outputBuffer, outputBuffer.storage}
    }

    constructor (fd: nat, hasWriteComplete: bool)
      ensures Valid() && fresh(Touched()) && View() == NewConn(hasWriteComplete)
    {
      phase, notify := Connecting, hasWriteComplete;
      channel := new Channel(fd);
      outputBuffer := new Buffer();
      queue, calling, wire, accepted, fins, completions := [], [], "", [], 0, 0;
      new;
      channel.EnableReading();
    }

    method ConnectEstablished()
      requires Valid() && Enabled(View(), Establish)
      modifies this, channel
      ensures Valid() && View() == Next(old(View()), Establish)
    {
      ghost var c := View();
      phase := Connected;
      channel.EnableReading();
      GracefulStep(c, Establish);
    }

    method ConnectDestroyed()
      requires Valid() && Enabled(View(), Destroy)
      modifies this, channel
      ensures Valid() && View() == Next(old(View()), Destroy)
    {
      ghost var c := View();
      phase := Disconnected;
      channel.DisableAll();
      GracefulStep(c, Destroy);
    }

    ghost method Complete()
      modifies this`completions
      ensures completions == old(completions) + if notify then 1 else 0
    {
      completions := if notify then completions + 1 else completions;
    }

    method SendInLoop(message: string, wrote: int)
      requires Valid() && wrote <= |message| && (fins > 0 ==> wrote < 0)
      modifies Touched()
      ensures Valid() && (outputBuffer.storage == old(outputBuffer.storage) || fresh(outputBuffer.storage))
      ensures View() == SentInLoop(old(View()), message, wrote)
    {
      ghost var c := View();
      if !channel.IsWriting() && outputBuffer.ReadableBytes() == 0 {
        if wrote >= 0 {
          wire, accepted := wire + message[..wrote], accepted + [message];
          if wrote < |message| {
            outputBuffer.AppendString(message[wrote..]);
            if !channel.IsWriting() {
              channel.EnableWriting();
            }
          } else {
            Complete();
          }
        }
      }
      assert View() == SentInLoop(c, message, wrote);
      GracefulSend(c, message, wrote);
    }

    method Send(message: string, wrote: int)
      requires Valid() && wrote <= |message|
      modifies Touched()
      ensures Valid() && (outputBuffer.storage == old(outputBuffer.storage) || fresh(outputBuffer.storage))
      ensures View() == Next(old(View()), Step.Send(message, wrote))
    {
      if phase == Connected {
        SendInLoop(message, wrote);
      }
    }

    method ShutdownInLoop()
      requires outputBuffer.Valid()
      modifies this`fins
      ensures View() == ShutInLoop(old(View()))
    {
      if !channel.IsWriting() {
        fins := fins + 1;
      }
    }

    method Shutdown()
      requires Valid()
      modifies this
      ensures Valid() && View() == Next(old(View()), Step.Shutdown)
    {
      GracefulStep(View(), Step.Shutdown);
      if phase == Connected {
        phase := Disconnecting;
        ShutdownInLoop();
      }
    }

    /** send from another thread, up to the test of state_. */
    ghost method CallForeignSend(message: string)
      requires Valid()
      modifies this
      ensures Valid() && View() == Next(old(View()), ForeignSend(message))
    {
      GracefulStep(View(), ForeignSend(message));
      if phase == Connected {
        calling := calling + [SendTask(message)];
      }
    }

    /** shutdown from another thread, up to the change of state_. */
    method CallForeignShutdown()
      requires Valid()
      modifies this
      ensures Valid() && View() == Next(old(View()), ForeignShutdown)
    {
      GracefulStep(View(), ForeignShutdown);
      if phase == Connected {
        phase := Disconnecting;
        calling := calling + [ShutdownTask];
      }
    }

    /** Such a call queues its task. */
    method PushTask(i: nat, task: Task)
      requires Valid() && i < |calling| && calling[i] == task
      modifies this
      ensures Valid() && View() == Next(old(View()), Push(i))
    {
      GracefulStep(View(), Push(i));
      queue := queue + [task];
      calling := Without(calling, i);
    }

    /** The loop runs the oldest task. */
    method RunTask(wrote: int)
      requires Valid() && queue != [] && (queue[0].SendTask? ==> Enabled(View(), LateSend(wrote)))
      modifies Touched()
      ensures Valid() && (outputBuffer.storage == old(outputBuffer.storage) || fresh(outputBuffer.storage))
      ensures View() == Next(old(View()), if old(queue)[0].SendTask? then LateSend(wrote) else LateShutdown)
    {
      ghost var c := View();
      var task := queue[0];
      match task {
        case SendTask(message) =>
          AskedStep(c, LateSend(wrote));
          queue := queue[1..];
          SendInLoop(message, wrote);
        case ShutdownTask =>
          GracefulStep(c, LateShutdown);
          queue := queue[1..];
          ShutdownInLoop();
      }
    }

    method HandleWrite(wrote: int)
      requires Valid() && Enabled(View(), Step.HandleWrite(wrote))
      modifies this, channel, outputBuffer
      ensures Valid() && outputBuffer.storage == old(outputBuffer.storage)
      ensures View() == Next(old(View()), Step.HandleWrite(wrote))
    {
      GracefulStep(View(), Step.HandleWrite(wrote));
      if channel.IsWriting() {
        if wrote > 0 {
          wire := wire + outputBuffer.Contents()[..wrote];
          outputBuffer.RetrieveBytes(wrote);
          if outputBuffer.ReadableBytes() == 0 {
            WriteDone();
          }
        }
      }
    }

    /** The rest of handleWrite once the buffer is empty. */
    method WriteDone()
      requires outputBuffer.Valid() && outputBuffer.Contents() == ""
      modifies this, channel
      ensures outputBuffer.Valid()
      ensures var done := old(View()).(writing := false).Completed();
              View() == if old(phase) == Disconnecting then ShutInLoop(done) else done
    {
      channel.DisableWriting();
      Complete();
      if phase == Disconnecting {
        ShutdownInLoop();
      }
    }
  }
}
