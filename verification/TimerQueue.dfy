/** The timers of an event loop: wf_timer.h, wf_timer.cc, wf_timer_queue.h and wf_timer_queue.cc. */
module TimerQueues {
  import opened Strings
  import opened Timestamps

  /** A timer with its history: what was asked for and when, and the clock at each of its runs. */
  datatype Timer = Timer(
    when: int, repeated: bool, interval: real, spec: Spec, created: int, times: seq<int>)
  {
    /** Another run is due. */
    predicate Live() {
      repeated || times == []
    }

    function Span(): int {
      Micros(interval)
    }
  }

  /** runAt, runAfter and runEvery. */
  datatype Spec = At(at: int) | After(delta: real) | Every(interval: real)

  function Made(spec: Spec, now: int): Timer {
    match spec
    case At(at) => Timer(at, false, 0.0, spec, now, [])
    case After(delta) => Timer(AddTime(now, delta), false, 0.0, spec, now, [])
    case Every(interval) => Timer(AddTime(now, interval), interval > 0.0, interval, spec, now, [])
  }

  /** A timer is due when its caller said: at a time, or a number of microseconds from now. */
  lemma DueAsAsked(now: int, t: int, m: int)
    ensures Made(At(t), now).when == t && !Made(At(t), now).repeated
    ensures Made(After(Seconds(m)), now).when == now + m && !Made(After(Seconds(m)), now).repeated
    ensures Made(Every(Seconds(m)), now).when == now + m && (Made(Every(Seconds(m)), now).repeated <==> m > 0)
    ensures m > 0 ==> Made(Every(Seconds(m)), now).Span() == m
  {
    SecondsRoundTrip(m);
  }

  datatype Entry = Entry(key: int, id: nat)

  /** Insertion into the multimap: behind entries with the same key. */
  function Inserted(heap: seq<Entry>, e: Entry): seq<Entry> {
    if heap == [] || e.key < heap[0].key then [e] + heap else [heap[0]] + Inserted(heap[1..], e)
  }

  /** lower_bound: how many entries come before the first one not earlier than now. */
  function LowerBound(heap: seq<Entry>, now: int): (n: nat)
    ensures n <= |heap|
  {
    if heap == [] || heap[0].key >= now then 0 else 1 + LowerBound(heap[1..], now)
  }

  /**
   * The queue, the entries taken out and not yet run, the timer whose callback runs, the last clock reading, the
   * order in which timers ran, and the time the timerfd is set to go off at.
   */
  datatype State = State(
    heap: seq<Entry>, expired: seq<Entry>, running: Option<nat>, timers: seq<Timer>, clock: int, ran: seq<nat>,
    armed: Option<int>)

  const INITIAL: State := State([], [], None, [], 0, [], None)

  /**
   * Add may come at any time on the loop's thread, from inside a callback too. Adding, and putting back, read the
   * clock once more when they set the timerfd.
   */
  datatype Step =
    | Add(spec: Spec, now: int, later: int)
    | Expire(now: int)
    | RunNext(now: int)
    | Rearm(now: int, later: int)

  ghost predicate Enabled(s: State, a: Step) {
    && s.clock <= a.now
    && match a
       case Add(_, now, later) => now <= later
       case Expire(now) => s.expired == [] && s.running == None && s.armed.Some? && s.armed.value <= now
       case RunNext(_) => s.expired != [] && s.running == None && s.expired[0].id < |s.timers|
       case Rearm(now, later) => now <= later && s.running.Some? && s.running.value < |s.timers|
  }

  /** timerfd_settime for a time from now: no time left disarms it, and a time in the past is an error. */
  function Set(armed: Option<int>, when: int, now: int): Option<int> {
    if now < when then Some(when) else if now == when then None else armed
  }

  function Added(s: State, t: Timer): State {
    s.(timers := s.timers + [t], heap := Inserted(s.heap, Entry(t.when, |s.timers|)))
  }

  function Expired(s: State, now: int): State {
    var n := LowerBound(s.heap, now);
    s.(expired := s.heap[..n], heap := s.heap[n..])
  }

  function RanOnce(t: Timer, now: int): Timer {
    t.(times := t.times + [now])
  }

  function Next(s: State, a: Step): State
    requires Enabled(s, a)
  {
    var c := s.(clock := if a.Add? || a.Rearm? then a.later else a.now);
    match a
    case Add(spec, now, later) =>
      var t := Made(spec, now);
      Added(c, t).(armed := Set(s.armed, t.when, later))
    case Expire(now) => Expired(c, now).(armed := None)
    case RunNext(now) =>
      var id := s.expired[0].id;
      c.(expired := s.expired[1..], running := Some(id), ran := s.ran + [id],
         timers := s.timers[id := RanOnce(s.timers[id], now)])
    case Rearm(now, later) =>
      var id := s.running.value;
      var t := s.timers[id];
      if !t.repeated then c.(running := None)
      else
        var again := t.(when := AddTime(now, t.interval));
        c.(running := None, timers := s.timers[id := again], heap := Inserted(s.heap, Entry(again.when, id)),
           armed := Set(s.armed, again.when, later))
  }

  // ---- The multimap ----

  ghost predicate Sorted(heap: seq<Entry>) {
    forall i, j :: 0 <= i < j < |heap| ==> heap[i].key <= heap[j].key
  }

  lemma {:induction false} InsertedSorted(heap: seq<Entry>, e: Entry)
    requires Sorted(heap)
    ensures Sorted(Inserted(heap, e))
    ensures forall x :: x in Inserted(heap, e) <==> x == e || x in heap
  {
    if heap != [] && heap[0].key <= e.key {
      InsertedSorted(heap[1..], e);
      assert heap == [heap[0]] + heap[1..];
      assert forall x :: x in heap[1..] ==> heap[0].key <= x.key;
    }
  }

  lemma {:induction false} LowerBoundCuts(heap: seq<Entry>, now: int)
    requires Sorted(heap)
    ensures var n := LowerBound(heap, now);
            (forall i :: 0 <= i < n ==> heap[i].key < now) && (forall i :: n <= i < |heap| ==> now <= heap[i].key)
  {
    if heap != [] && heap[0].key < now {
      LowerBoundCuts(heap[1..], now);
      var n := LowerBound(heap[1..], now);
      forall i | 0 < i < |heap| ensures if i < n + 1 then heap[i].key < now else now <= heap[i].key {
        assert heap[i] == heap[1..][i - 1];
      }
    }
  }

  /** A new entry stands behind every entry that is due no later, and before all others. */
  lemma {:induction false} InsertedInPlace(heap: seq<Entry>, e: Entry) returns (k: nat)
    requires Sorted(heap)
    ensures k <= |heap| && Inserted(heap, e) == heap[..k] + [e] + heap[k..]
    ensures forall i :: 0 <= i < |heap| ==> (i < k <==> heap[i].key <= e.key)
  {
    if heap == [] || e.key < heap[0].key {
      k := 0;
      assert heap[..0] + [e] + heap[0..] == [e] + heap;
    } else {
      var j := InsertedInPlace(heap[1..], e);
      k := j + 1;
      assert heap[..k] == [heap[0]] + heap[1..][..j] && heap[k..] == heap[1..][j..];
      assert Inserted(heap, e) == [heap[0]] + (heap[1..][..j] + [e] + heap[1..][j..]);
      forall i | 0 <= i < |heap| ensures i < k <==> heap[i].key <= e.key {
        assert i > 0 ==> heap[i] == heap[1..][i - 1];
      }
    }
  }

  /** The timers in a queue, each as often as it is there. */
  ghost function Ids(heap: seq<Entry>): multiset<nat> {
    if heap == [] then multiset{} else multiset{heap[0].id} + Ids(heap[1..])
  }

  lemma {:induction false} IdsInserted(heap: seq<Entry>, e: Entry)
    ensures Ids(Inserted(heap, e)) == Ids(heap) + multiset{e.id}
  {
    if heap == [] || e.key < heap[0].key {
      assert ([e] + heap)[1..] == heap;
    } else {
      IdsInserted(heap[1..], e);
      assert ([heap[0]] + Inserted(heap[1..], e))[1..] == Inserted(heap[1..], e);
    }
  }

  lemma {:induction false} IdsConcat(a: seq<Entry>, b: seq<Entry>)
    ensures Ids(a + b) == Ids(a) + Ids(b)
  {
    if a == [] {
      assert a + b == b;
    } else {
      assert (a + b)[0] == a[0] && (a + b)[1..] == a[1..] + b;
      IdsConcat(a[1..], b);
    }
  }

  lemma {:induction false} AbsentFrom(heap: seq<Entry>, id: nat)
    requires Ids(heap)[id] == 0
    ensures forall e :: e in heap ==> e.id != id
  {
    if heap != [] {
      assert heap == [heap[0]] + heap[1..];
      AbsentFrom(heap[1..], id);
    }
  }

  /** An expiry takes out exactly the entries earlier than now, in the order of their keys. */
  lemma ExpiryIsExact(s: State, now: int)
    requires Sorted(s.heap) && Enabled(s, Expire(now))
    ensures var e := Next(s, Expire(now));
            && e.expired + e.heap == s.heap && Sorted(e.expired)
            && (forall x :: x in e.expired <==> x in s.heap && x.key < now)
            && (forall x :: x in e.heap <==> x in s.heap && now <= x.key)
  {
    LowerBoundCuts(s.heap, now);
    var n := LowerBound(s.heap, now);
    assert s.heap == s.heap[..n] + s.heap[n..];
  }

  // ---- Safety ----

  /** The repeating timer whose callback runs; it goes back into the heap after it. */
  ghost function Held(s: State): multiset<nat> {
    if s.running.Some? && s.running.value < |s.timers| && s.timers[s.running.value].repeated
    then multiset{s.running.value} else multiset{}
  }

  ghost function Waiting(s: State): multiset<nat> {
    Ids(s.heap) + Ids(s.expired) + Held(s)
  }

  lemma MoveOut(a: multiset<nat>, x: multiset<nat>, b: multiset<nat>, c: multiset<nat>)
    ensures a + x + b + c == a + b + c + x
  {
  }

  /** Each live timer counts once, a spent one not at all. */
  ghost predicate Counts(waiting: multiset<nat>, timers: seq<Timer>) {
    forall id: nat :: waiting[id] == if id < |timers| && timers[id].Live() then 1 else 0
  }

  /** A live timer waits in exactly one place, once; a spent one in none. */
  ghost predicate OncePlaced(s: State) {
    && Counts(Waiting(s), s.timers)
    && (s.running.Some? ==> s.running.value < |s.timers| && s.timers[s.running.value].times != [])
  }

  ghost predicate Keyed(s: State) {
    && Sorted(s.heap)
    && (forall e :: e in s.heap || e in s.expired ==> e.id < |s.timers| && e.key == s.timers[e.id].when)
    && (forall e :: e in s.expired ==> e.key < s.clock)
  }

  /** The earliest time a repeating timer's run k, counted from zero, can be due. */
  function Due(t: Timer, k: int): int {
    t.created + (k + 1) * t.Span()
  }

  lemma DueNext(t: Timer, k: int)
    ensures Due(t, k + 1) == Due(t, k) + t.Span()
  {
  }

  /** What was asked for is what the timer is: its due time, as long as it has not run, and whether it repeats. */
  ghost predicate AsAsked(t: Timer) {
    match t.spec
    case At(at) => t.when == at && !t.repeated
    case After(delta) => t.when == t.created + Micros(delta) && !t.repeated
    case Every(interval) =>
      && t.interval == interval && (t.repeated <==> interval > 0.0)
      && (t.times == [] || !t.repeated ==> t.when == t.created + Micros(interval))
  }

  /** A one-shot timer ran at most once, and after it was due; every run of a repeating timer came later than due. */
  ghost predicate OnTime(t: Timer) {
    if t.repeated then forall k :: 0 <= k < |t.times| ==> Due(t, k) < t.times[k]
    else |t.times| <= 1 && (t.times != [] ==> t.when < t.times[0])
  }

  ghost predicate Ahead(t: Timer) {
    t.repeated ==> Due(t, |t.times|) <= t.when
  }

  ghost predicate RanBy(t: Timer, clock: int) {
    t.times != [] && t.times[|t.times| - 1] <= clock
  }

  ghost predicate Punctual(s: State) {
    && (forall i :: 0 <= i < |s.timers| ==> OnTime(s.timers[i]) && AsAsked(s.timers[i]))
    && (forall e :: e in s.heap || e in s.expired ==> e.id < |s.timers| && Ahead(s.timers[e.id]))
    && (s.running.Some? ==> s.running.value < |s.timers| && RanBy(s.timers[s.running.value], s.clock))
  }

  ghost predicate Safe(s: State) {
    Keyed(s) && OncePlaced(s) && Punctual(s)
  }

  lemma AddKeyed(s: State, t: Timer)
    requires Keyed(s)
    ensures Keyed(Added(s, t))
  {
    InsertedSorted(s.heap, Entry(t.when, |s.timers|));
  }

  lemma CountsAdded(waiting: multiset<nat>, timers: seq<Timer>, t: Timer)
    requires Counts(waiting, timers) && t.Live()
    ensures Counts(waiting + multiset{|timers|}, timers + [t])
  {
  }

  lemma AddPlaced(s: State, t: Timer)
    requires OncePlaced(s) && t.times == []
    ensures OncePlaced(Added(s, t))
  {
    var e := Entry(t.when, |s.timers|);
    IdsInserted(s.heap, e);
    CountsAdded(Waiting(s), s.timers, t);
    assert Held(Added(s, t)) == Held(s);
    MoveOut(Ids(s.heap), multiset{e.id}, Ids(s.expired), Held(s));
  }

  lemma AddPunctual(s: State, t: Timer)
    requires Sorted(s.heap) && Punctual(s) && t.times == [] && Ahead(t) && AsAsked(t)
    ensures Punctual(Added(s, t))
  {
    InsertedSorted(s.heap, Entry(t.when, |s.timers|));
  }

  lemma MadeAhead(spec: Spec, now: int)
    ensures Ahead(Made(spec, now)) && OnTime(Made(spec, now)) && AsAsked(Made(spec, now))
  {
  }

  lemma Tick(s: State, now: int)
    requires Safe(s) && s.clock <= now
    ensures Safe(s.(clock := now))
  {
  }

  /** The timerfd has no part in what timers wait where. */
  lemma SetSafe(s: State, armed: Option<int>)
    requires Safe(s)
    ensures Safe(s.(armed := armed))
  {
  }

  lemma AddSafe(s: State, spec: Spec, now: int, later: int)
    requires Safe(s) && Enabled(s, Add(spec, now, later))
    ensures Safe(Next(s, Add(spec, now, later)))
  {
    var c, t := s.(clock := later), Made(spec, now);
    Tick(s, later);
    MadeAhead(spec, now);
    AddKeyed(c, t);
    AddPlaced(c, t);
    AddPunctual(c, t);
    SetSafe(Added(c, t), Set(s.armed, t.when, later));
  }

  lemma Swapped(a: multiset<nat>, b: multiset<nat>)
    ensures b + a + multiset{} == a + b + multiset{} + multiset{}
  {
  }

  lemma ExpiredPlaced(s: State, now: int)
    requires OncePlaced(s) && s.expired == [] && s.running == None
    ensures OncePlaced(Expired(s, now))
  {
    var cut := LowerBound(s.heap, now);
    var due, rest := s.heap[..cut], s.heap[cut..];
    assert s.heap == due + rest;
    IdsConcat(due, rest);
    Swapped(Ids(due), Ids(rest));
    assert Waiting(s) == Ids(due) + Ids(rest) + multiset{} + multiset{};
    assert Waiting(Expired(s, now)) == Ids(rest) + Ids(due) + multiset{};
  }

  lemma ExpiredKeyed(s: State)
    requires Keyed(s) && s.expired == []
    ensures Keyed(Expired(s, s.clock))
  {
    LowerBoundCuts(s.heap, s.clock);
  }

  lemma ExpiredPunctual(s: State)
    requires Punctual(s) && s.expired == []
    ensures Punctual(Expired(s, s.clock))
  {
    var n := LowerBound(s.heap, s.clock);
    assert forall e :: e in s.heap[..n] || e in s.heap[n..] ==> e in s.heap;
  }

  lemma ExpireSafe(s: State, now: int)
    requires Safe(s) && Enabled(s, Expire(now))
    ensures Safe(Next(s, Expire(now)))
  {
    var c := s.(clock := now);
    Tick(s, now);
    ExpiredKeyed(c);
    ExpiredPunctual(c);
    ExpiredPlaced(c, now);
    SetSafe(Expired(c, now), None);
  }

  /** The timer at the head of the expired ones waits nowhere else. */
  lemma HeadIsAlone(s: State)
    requires Safe(s) && s.expired != [] && s.running == None
    ensures s.timers[s.expired[0].id].Live()
    ensures forall e :: e in s.heap || e in s.expired[1..] ==> e.id != s.expired[0].id
    ensures Waiting(s) == Ids(s.heap) + Ids(s.expired[1..]) + multiset{s.expired[0].id}
  {
    var id := s.expired[0].id;
    assert Waiting(s) == Ids(s.heap) + Ids(s.expired[1..]) + multiset{id};
    assert Waiting(s)[id] <= 1;
    AbsentFrom(s.heap, id);
    AbsentFrom(s.expired[1..], id);
  }

  lemma CountsRan(waiting: multiset<nat>, timers: seq<Timer>, id: nat, now: int)
    requires Counts(waiting, timers) && id < |timers| && timers[id].Live()
    ensures Counts(if timers[id].repeated then waiting else waiting - multiset{id},
                   timers[id := RanOnce(timers[id], now)])
  {
  }

  lemma RunPlaced(s: State, now: int)
    requires Safe(s) && Enabled(s, RunNext(now))
    ensures OncePlaced(Next(s, RunNext(now)))
  {
    HeadIsAlone(s);
    var n := Next(s, RunNext(now));
    var id := s.expired[0].id;
    CountsRan(Waiting(s), s.timers, id, now);
    var others := Ids(s.heap) + Ids(s.expired[1..]);
    assert others + multiset{id} - multiset{id} == others;
    assert Waiting(n) == if s.timers[id].repeated then others + multiset{id} else others;
  }

  lemma RunOnTime(s: State, now: int)
    requires Safe(s) && Enabled(s, RunNext(now))
    ensures OnTime(RanOnce(s.timers[s.expired[0].id], now)) && AsAsked(RanOnce(s.timers[s.expired[0].id], now))
  {
  }

  lemma RunPunctual(s: State, now: int)
    requires Safe(s) && Enabled(s, RunNext(now))
    ensures Punctual(Next(s, RunNext(now)))
  {
    HeadIsAlone(s);
    RunOnTime(s, now);
    var n := Next(s, RunNext(now));
    forall x | x in n.heap || x in n.expired ensures x.id < |n.timers| && Ahead(n.timers[x.id]) {
      assert x in s.heap || x in s.expired;
      assert x.id != s.expired[0].id;
    }
  }

  lemma RunSafe(s: State, now: int)
    requires Safe(s) && Enabled(s, RunNext(now))
    ensures Safe(Next(s, RunNext(now)))
  {
    RunPlaced(s, now);
    RunPunctual(s, now);
  }

  /** A repeating timer whose callback runs waits in neither queue. */
  lemma RunningIsAlone(s: State)
    requires Safe(s) && s.running.Some? && s.timers[s.running.value].repeated
    ensures forall e :: e in s.heap || e in s.expired ==> e.id != s.running.value
  {
    var id := s.running.value;
    assert Waiting(s)[id] <= 1;
    AbsentFrom(s.heap, id);
    AbsentFrom(s.expired, id);
  }

  lemma RearmKeyed(s: State, now: int, later: int)
    requires Safe(s) && Enabled(s, Rearm(now, later)) && s.timers[s.running.value].repeated
    ensures Keyed(Next(s, Rearm(now, later)))
  {
    var id := s.running.value;
    RunningIsAlone(s);
    InsertedSorted(s.heap, Entry(AddTime(now, s.timers[id].interval), id));
  }

  lemma CountsUpdated(waiting: multiset<nat>, timers: seq<Timer>, id: nat, t: Timer)
    requires Counts(waiting, timers) && id < |timers| && t.Live() == timers[id].Live()
    ensures Counts(waiting, timers[id := t])
  {
  }

  lemma RearmPlaced(s: State, now: int, later: int)
    requires Safe(s) && Enabled(s, Rearm(now, later))
    ensures OncePlaced(Next(s, Rearm(now, later)))
  {
    var id := s.running.value;
    var n := Next(s, Rearm(now, later));
    if s.timers[id].repeated {
      IdsInserted(s.heap, Entry(n.timers[id].when, id));
      MoveOut(Ids(s.heap), multiset{id}, Ids(s.expired), multiset{});
      CountsUpdated(Waiting(s), s.timers, id, n.timers[id]);
      assert Held(n) == multiset{};
      assert Waiting(n) == Waiting(s);
    } else {
      assert Held(n) == Held(s);
    }
  }

  lemma RearmPunctual(s: State, now: int, later: int)
    requires Safe(s) && Enabled(s, Rearm(now, later)) && s.timers[s.running.value].repeated
    ensures Punctual(Next(s, Rearm(now, later)))
  {
    var id := s.running.value;
    var t, n := s.timers[id], Next(s, Rearm(now, later));
    RunningIsAlone(s);
    InsertedSorted(s.heap, Entry(AddTime(now, t.interval), id));
    DueNext(t, |t.times| - 1);
    assert Ahead(n.timers[id]) && OnTime(n.timers[id]) && AsAsked(n.timers[id]);
    assert forall x :: x in n.heap || x in n.expired ==> x.id == id || n.timers[x.id] == s.timers[x.id];
  }

  lemma RearmSafe(s: State, now: int, later: int)
    requires Safe(s) && Enabled(s, Rearm(now, later))
    ensures Safe(Next(s, Rearm(now, later)))
  {
    RearmPlaced(s, now, later);
    if s.timers[s.running.value].repeated {
      RearmKeyed(s, now, later);
      RearmPunctual(s, now, later);
    }
  }

  ghost predicate LegalRun(s: State, run: seq<Step>)
    decreases |run|
  {
    run != [] ==> Enabled(s, run[0]) && LegalRun(Next(s, run[0]), run[1..])
  }

  function StateAfter(s: State, run: seq<Step>): State
    requires LegalRun(s, run)
    decreases |run|
  {
    if run == [] then s else StateAfter(Next(s, run[0]), run[1..])
  }

  lemma StepSafe(s: State, a: Step)
    requires Safe(s) && Enabled(s, a)
    ensures Safe(Next(s, a))
  {
    match a {
      case Add(spec, now, later) => AddSafe(s, spec, now, later);
      case Expire(now) => ExpireSafe(s, now);
      case RunNext(now) => RunSafe(s, now);
      case Rearm(now, later) => RearmSafe(s, now, later);
    }
  }

  /** Over every run, callbacks that add timers included, the queue stays safe. */
  lemma {:induction false} TimerSafety(s: State, run: seq<Step>)
    requires Safe(s) && LegalRun(s, run)
    ensures Safe(StateAfter(s, run))
    decreases |run|
  {
    if run != [] {
      StepSafe(s, run[0]);
      TimerSafety(Next(s, run[0]), run[1..]);
    }
  }

  /** What that says of a repeating timer: run k, counted from one, is later than k intervals after it was made. */
  lemma RepeatingTimersKeepTheirDistance(s: State, id: nat, k: nat)
    requires Safe(s) && id < |s.timers| && s.timers[id].repeated && 1 <= k <= |s.timers[id].times|
    ensures s.timers[id].times[k - 1] > s.timers[id].created + k * s.timers[id].Span()
  {
  }

  /** A timer asked for m microseconds after it was made runs later than that, and once. */
  lemma RunAfterKeepsItsDelay(s: State, id: nat, m: int)
    requires Safe(s) && id < |s.timers| && s.timers[id].spec == After(Seconds(m))
    ensures |s.timers[id].times| <= 1 && (s.timers[id].times != [] ==> s.timers[id].times[0] > s.timers[id].created + m)
  {
    SecondsRoundTrip(m);
  }

  /** One asked for a time runs later than that, and once. */
  lemma RunAtKeepsItsTime(s: State, id: nat, at: int)
    requires Safe(s) && id < |s.timers| && s.timers[id].spec == At(at)
    ensures |s.timers[id].times| <= 1 && (s.timers[id].times != [] ==> s.timers[id].times[0] > at)
  {
  }

  /** A timer added is the last one, made for that call, and waits under its time. */
  lemma AddedTimer(s: State, spec: Spec, now: int, later: int)
    requires Safe(s) && Enabled(s, Add(spec, now, later))
    ensures var e := Next(s, Add(spec, now, later));
            && |e.timers| == |s.timers| + 1 && e.timers[..|s.timers|] == s.timers
            && var t := e.timers[|s.timers|];
               t.spec == spec && t.created == now && t.times == [] && Entry(t.when, |s.timers|) in e.heap
  {
    InsertedSorted(s.heap, Entry(Made(spec, now).when, |s.timers|));
  }

  /** A repeating timer is put back for its interval from then. */
  lemma RearmedTimer(s: State, now: int, later: int, m: int)
    requires Safe(s) && Enabled(s, Rearm(now, later)) && s.timers[s.running.value].spec == Every(Seconds(m)) && m > 0
    ensures var id := s.running.value;
            var e := Next(s, Rearm(now, later));
            e.timers[id].when == now + m && Entry(now + m, id) in e.heap && e.timers[id].times == s.timers[id].times
  {
    var id := s.running.value;
    SecondsRoundTrip(m);
    assert Seconds(m) > 0.0;
    InsertedSorted(s.heap, Entry(AddTime(now, s.timers[id].interval), id));
  }

  // ---- The timerfd ----

  /** Nothing is being run, so the timerfd decides what happens next. */
  ghost predicate Idle(s: State) {
    s.expired == [] && s.running == None
  }

  /** Nothing can happen, and so no timer will run, until another one is added. */
  ghost predicate Stuck(s: State) {
    forall a :: Enabled(s, a) ==> a.Add?
  }

  /** That is so exactly while the timerfd is not set, however many timers wait. */
  lemma StuckWhileDisarmed(s: State)
    requires Idle(s)
    ensures Stuck(s) <==> s.armed == None
  {
    if s.armed.Some? {
      var now := if s.clock <= s.armed.value then s.armed.value else s.clock;
      assert Enabled(s, Expire(now));
    }
  }

  /** A waiting timer is sure to run when the timerfd goes off, if and only if it was due before that. */
  lemma NextExpiryTakes(s: State, e: Entry)
    requires Sorted(s.heap) && Idle(s) && s.armed.Some? && s.clock <= s.armed.value && e in s.heap
    ensures (forall now | Enabled(s, Expire(now)) :: e in Next(s, Expire(now)).expired) <==> e.key < s.armed.value
  {
    forall now | Enabled(s, Expire(now))
      ensures e in Next(s, Expire(now)).expired <==> e.key < now
    {
      ExpiryIsExact(s, now);
    }
    assert Enabled(s, Expire(s.armed.value));
  }

  /** The timerfd goes off when the first waiting timer is due. */
  ghost predicate InTime(s: State) {
    s.armed == if s.heap == [] then None else Some(s.heap[0].key)
  }

  lemma FirstInserted(heap: seq<Entry>, e: Entry)
    ensures var h := Inserted(heap, e);
            h != [] && h[0].key == if heap == [] || e.key < heap[0].key then e.key else heap[0].key
  {
  }

  /** Setting it for a timer is right if that is due first, or is past already and others wait. */
  predicate RightToSet(s: State, when: int, later: int) {
    if later < when then s.heap == [] || when <= s.heap[0].key
    else when < later && s.heap != [] && s.heap[0].key <= when
  }

  lemma SetInTime(s: State, when: int, later: int, id: nat)
    requires InTime(s)
    ensures InTime(s.(heap := Inserted(s.heap, Entry(when, id)), armed := Set(s.armed, when, later)))
            <==> RightToSet(s, when, later)
  {
    FirstInserted(s.heap, Entry(when, id));
  }

  /** What a step needs for the timerfd to stay right: an expiry, that every waiting timer is due. */
  ghost predicate StaysRight(s: State, a: Step)
    requires Enabled(s, a)
  {
    match a
    case Add(spec, now, later) => RightToSet(s, Made(spec, now).when, later)
    case Expire(now) => forall e :: e in s.heap ==> e.key < now
    case RunNext(_) => true
    case Rearm(now, later) =>
      var t := s.timers[s.running.value];
      t.repeated ==> RightToSet(s, AddTime(now, t.interval), later)
  }

  lemma StepInTime(s: State, a: Step)
    requires Sorted(s.heap) && InTime(s) && Enabled(s, a)
    ensures InTime(Next(s, a)) <==> StaysRight(s, a)
  {
    match a {
      case Add(spec, now, later) =>
        SetInTime(s, Made(spec, now).when, later, |s.timers|);
      case Expire(now) =>
        ExpiryIsExact(s, now);
        var h := Next(s, a).heap;
        assert h != [] ==> h[0] in h;
      case Rearm(now, later) =>
        SetInTime(s, AddTime(now, s.timers[s.running.value].interval), later, s.running.value);
      case RunNext(_) =>
    }
  }

  ghost predicate AlwaysInTime(s: State, run: seq<Step>)
    requires LegalRun(s, run)
    decreases |run|
  {
    InTime(s) && (run != [] ==> AlwaysInTime(Next(s, run[0]), run[1..]))
  }

  ghost predicate AllStayRight(s: State, run: seq<Step>)
    requires LegalRun(s, run)
    decreases |run|
  {
    run != [] ==> StaysRight(s, run[0]) && AllStayRight(Next(s, run[0]), run[1..])
  }

  /**
   * Throughout a run the timerfd is set for the first waiting timer, if and only if each timer is added while it is
   * the first one due, or past already, and each expiry finds every waiting timer due.
   */
  lemma {:induction false} TimerfdInTime(s: State, run: seq<Step>)
    requires Safe(s) && InTime(s) && LegalRun(s, run)
    ensures AlwaysInTime(s, run) <==> AllStayRight(s, run)
    decreases |run|
  {
    if run != [] {
      StepInTime(s, run[0]);
      StepSafe(s, run[0]);
      if StaysRight(s, run[0]) {
        TimerfdInTime(Next(s, run[0]), run[1..]);
      }
    }
  }

  /** The later of two timers, added first, is left behind: nothing will run it unless another timer is added. */
  lemma LaterTimerLeftBehind()
    ensures var run := [Add(At(20), 0, 0), Add(At(10), 0, 0), Expire(11), RunNext(11), Rearm(11, 11)];
            && LegalRun(INITIAL, run) && Stuck(StateAfter(INITIAL, run))
            && StateAfter(INITIAL, run).heap == [Entry(20, 0)]
  {
    var run := [Add(At(20), 0, 0), Add(At(10), 0, 0), Expire(11), RunNext(11), Rearm(11, 11)];
    var s := Next(Next(INITIAL, run[0]), run[1]);
    assert Inserted([Entry(20, 0)], Entry(10, 1)) == [Entry(10, 1), Entry(20, 0)];
    assert s.heap == [Entry(10, 1), Entry(20, 0)] && s.armed == Some(10);
    assert s.heap[1..] == [Entry(20, 0)] && LowerBound(s.heap, 11) == 1;
    var t := Next(s, run[2]);
    assert t.expired == [Entry(10, 1)] && t.heap == [Entry(20, 0)];
  }

  // ---- The class ----

  lemma {:induction false} RunExtends(s: State, run: seq<Step>, a: Step)
    requires LegalRun(s, run) && Enabled(StateAfter(s, run), a)
    ensures LegalRun(s, run + [a]) && StateAfter(s, run + [a]) == Next(StateAfter(s, run), a)
    decreases |run|
  {
    if run == [] {
      var t := Next(s, a);
      assert LegalRun(t, []) && StateAfter(t, []) == t;
      assert run + [a] == [a] && [a][1..] == [];
    } else {
      assert (run + [a])[1..] == run[1..] + [a];
      RunExtends(Next(s, run[0]), run[1..], a);
    }
  }

  lemma OneRun(ran: seq<nat>, entries: seq<Entry>, i: nat)
    requires i < |entries|
    ensures entries[i..][1..] == entries[i + 1..]
    ensures ran + [entries[i].id] + IdList(entries[i + 1..]) == ran + IdList(entries[i..])
  {
    assert IdList(entries[i..]) == [entries[i].id] + IdList(entries[i + 1..]);
  }

  /** What timers were asked for. */
  function Specs(timers: seq<Timer>): seq<Spec> {
    if timers == [] then [] else [timers[0].spec] + Specs(timers[1..])
  }

  lemma {:induction false} SpecsOneMore(timers: seq<Timer>, t: Timer)
    ensures Specs(timers + [t]) == Specs(timers) + [t.spec]
  {
    if timers == [] {
      assert timers + [t] == [t] && [t][1..] == [];
    } else {
      assert (timers + [t])[1..] == timers[1..] + [t];
      SpecsOneMore(timers[1..], t);
    }
  }

  /** One more timer among those from the n-th on, and one more of what was asked for. */
  lemma OneMoreTimer(timers: seq<Timer>, t: Timer, n: nat, specs: seq<Spec>, i: nat)
    requires n <= |timers| && i < |specs| && t.spec == specs[i] && Specs(timers[n..]) == specs[..i]
    ensures Specs((timers + [t])[n..]) == specs[..i + 1]
  {
    assert (timers + [t])[n..] == timers[n..] + [t] && specs[..i + 1] == specs[..i] + [specs[i]];
    SpecsOneMore(timers[n..], t);
  }

  function IdList(entries: seq<Entry>): seq<nat> {
    if entries == [] then [] else [entries[0].id] + IdList(entries[1..])
  }

  /** Timers are known by their number; readings are what the clock shows, one after the other. */
  class TimerQueue {
    var heap: seq<Entry>
    var timers: seq<Timer>
    var ticks: nat
    var armed: Option<int>
    const readings: nat -> int
    const callback: (nat, nat) -> seq<Spec>
    ghost var expired: seq<Entry>
    ghost var running: Option<nat>
    ghost var clock: int
    ghost var ran: seq<nat>
    ghost var trace: seq<Step>

    ghost function View(): State
      reads this
    {
      State(heap, expired, running, timers, clock, ran, armed)
    }

    /** All that has happened to this queue is a legal run from the empty queue, on a clock that never goes back. */
    ghost predicate Valid()
      reads this
    {
      && LegalRun(INITIAL, trace) && StateAfter(INITIAL, trace) == View() && clock <= readings(ticks)
      && forall i: nat :: readings(i) <= readings(i + 1)
    }

    /** So the theorems above hold of this queue at any time. */
    lemma IsSafe()
      requires Valid()
      ensures Safe(View())
    {
      assert Waiting(INITIAL) == multiset{};
      TimerSafety(INITIAL, trace);
    }

    /** callback(id, k) lists the timers that run k of timer id adds. */
    constructor (readings: nat -> int, callback: (nat, nat) -> seq<Spec>)
      requires 0 <= readings(0) && forall i: nat :: readings(i) <= readings(i + 1)
      ensures Valid() && View() == INITIAL
    {
      heap, timers, ticks, armed := [], [], 0, None;
      this.readings, this.callback := readings, callback;
      expired, running, clock, ran, trace := [], None, 0, [], [];
    }

    /** Read the clock. */
    method Now() returns (now: int)
      requires Valid()
      modifies this`ticks
      ensures Valid() && clock <= now <= readings(ticks) && now == readings(old(ticks)) && ticks == old(ticks) + 1
    {
      now := readings(ticks);
      ticks := ticks + 1;
    }

    /** Record that the fields have just made the given step. */
    ghost method Record(s: State, a: Step)
      requires LegalRun(INITIAL, trace) && StateAfter(INITIAL, trace) == s
      requires Enabled(s, a) && View() == Next(s, a)
      requires clock <= readings(ticks) && forall i: nat :: readings(i) <= readings(i + 1)
      modifies this`trace
      ensures Valid()
    {
      RunExtends(INITIAL, trace, a);
      trace := trace + [a];
    }

    method AddTimer(spec: Spec)
      requires Valid()
      modifies this
      ensures Valid() && View() == Next(old(View()), Add(spec, readings(old(ticks)), readings(old(ticks) + 1)))
      ensures timers == old(timers) + [Made(spec, readings(old(ticks)))]
    {
      ghost var s := View();
      var now := Now();
      var later := Now();
      var timer := Made(spec, now);
      armed := Set(armed, timer.when, later);
      heap := Inserted(heap, Entry(timer.when, |timers|));
      timers := timers + [timer];
      clock := later;
      Record(s, Add(spec, now, later));
    }

    /** A callback adds its timers. */
    method RunTcb(specs: seq<Spec>)
      requires Valid()
      modifies this
      ensures Valid() && ran == old(ran) && expired == old(expired) && running == old(running)
      ensures |timers| == |old(timers)| + |specs| && old(timers) <= timers
      ensures Specs(timers[|old(timers)|..]) == specs
    {
      for i := 0 to |specs|
        invariant Valid() && ran == old(ran) && expired == old(expired) && running == old(running)
        invariant |timers| == |old(timers)| + i && old(timers) <= timers
        invariant Specs(timers[|old(timers)|..]) == specs[..i]
      {
        ghost var before := timers;
        AddTimer(specs[i]);
        OneMoreTimer(before, timers[|before|], |old(timers)|, specs, i);
      }
      assert specs[..|specs|] == specs;
    }

    /** Run the next expired timer, and put it back if it repeats. */
    method RunOne(entry: Entry)
      requires Valid() && running == None && expired != [] && expired[0] == entry
      modifies this
      ensures Valid() && running == None && expired == old(expired[1..]) && ran == old(ran) + [entry.id]
      ensures entry.id < |old(timers)| <= |timers|
      ensures |timers[entry.id].times| == |old(timers)[entry.id].times| + 1
      ensures Specs(timers[|old(timers)|..]) == callback(entry.id, |old(timers)[entry.id].times| + 1)
    {
      assert entry.id < |timers| by {
        IsSafe();
        assert expired[0] in expired;
      }
      var id := entry.id;
      ghost var s := View();
      var now := Now();
      timers := timers[id := RanOnce(timers[id], now)];
      expired, running, ran, clock := expired[1..], Some(id), ran + [id], now;
      Record(s, RunNext(now));
      ghost var n := |timers|;
      RunTcb(callback(id, |timers[id].times|));
      ghost var added := timers[n..];
      Rearmed(id);
      assert timers[n..] == timers[id + 1..][n - id - 1..] == added;
    }

    /** updateWhen and addTimer, for a timer that repeats. */
    method Rearmed(id: nat)
      requires Valid() && running == Some(id) && id < |timers|
      modifies this
      ensures Valid() && running == None && expired == old(expired) && ran == old(ran)
      ensures |timers| == |old(timers)| && timers[id].times == old(timers)[id].times
      ensures timers[id + 1..] == old(timers)[id + 1..]
    {
      ghost var s := View();
      if timers[id].repeated {
        var now := Now();
        var later := Now();
        var again := timers[id].(when := AddTime(now, timers[id].interval));
        timers := timers[id := again];
        armed := Set(armed, again.when, later);
        heap := Inserted(heap, Entry(again.when, id));
        running, clock := None, later;
        Record(s, Rearm(now, later));
      } else {
        running := None;
        Record(s, Rearm(clock, clock));
      }
    }

    method Reset(expvec: seq<Entry>)
      requires Valid() && running == None && expired == expvec
      modifies this
      ensures Valid() && running == None && expired == [] && ran == old(ran) + IdList(expvec)
    {
      for i := 0 to |expvec|
        invariant Valid() && running == None && expired == expvec[i..]
        invariant ran + IdList(expvec[i..]) == old(ran) + IdList(expvec)
      {
        OneRun(ran, expvec, i);
        RunOne(expvec[i]);
      }
      assert expvec[|expvec|..] == [] && ran + [] == ran;
    }

    /** The timerfd has gone off: the timers that are due run, in the order of their keys, each exactly once. */
    method TimerQueueCallBack()
      requires Valid() && running == None && expired == [] && armed.Some? && armed.value <= readings(ticks)
      modifies this
      ensures Valid() && running == None && expired == []
      ensures ran == old(ran) + IdList(old(heap)[..LowerBound(old(heap), readings(old(ticks)))])
    {
      ghost var s := View();
      var now := Now();
      var expEnd := LowerBound(heap, now);
      var expvec := heap[..expEnd];
      heap := heap[expEnd..];
      armed, expired, clock := None, expvec, now;
      Record(s, Expire(now));
      Reset(expvec);
    }
  }
}
