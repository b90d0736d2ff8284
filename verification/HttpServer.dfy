/** The driver of the parser on a connection: wf_http_server.cc. */
module HttpServers {
  import opened Strings
  import opened Buffers
  import opened HttpRequests
  import opened HttpContexts
  import opened HttpResponses
  import opened TcpConnections

  const BAD_REQUEST: string := "HTTP/1.1 400 Bad Request\r\n\r\n"

  /** The user's callback fills in a response made for the request. */
  type HttpCallback = (Request, Response) -> Response

  /** The order in which a header map is walked. */
  type Walk = map<string, string> -> seq<string>

  function ClosesAfter(r: Request): bool {
    Header(r, "Connection") == "close" || (r.version == Http10 && Header(r, "Connection") != "Keep-Alive")
  }

  function Answer(callback: HttpCallback, r: Request): Response {
    callback(r, Response(0, "", ClosesAfter(r), map[], ""))
  }

  /** By version: HTTP/1.0 is closed unless kept alive, any other kept alive unless closed. */
  lemma ClosesByVersion(r: Request)
    ensures r.version == Http10 ==>
              (ClosesAfter(r) <==> !("Connection" in r.headers && r.headers["Connection"] == "Keep-Alive"))
    ensures r.version != Http10 ==>
              (ClosesAfter(r) <==> "Connection" in r.headers && r.headers["Connection"] == "close")
  {
  }

  /** The response the callback is handed closes by that rule, and answers nothing yet. */
  lemma CallbackIsHanded(r: Request)
    ensures var handed := Answer((request, response) => response, r);
            handed.close == ClosesAfter(r) && handed.headers == map[] && handed.body == ""
  {
  }

  /** A printed response says by the same rule, behind a request line of either version, whether it closes. */
  lemma PeersAgreeOnClosing(
      m: Method, path: string, query: string, v: Version, r: Response, order: seq<string>, now: int)
    requires WellFormedLine(m, path, query, v) && NoCRLF(JoinLine(m, path, query, v))
    requires r.Printable() && Walks(order, r.headers) && r.LengthFits() && "Connection" !in r.headers
    ensures var read := Parse(FRESH, JoinLine(m, path, query, v) + CRLF + r.HeaderBlock(order), now);
            ClosesAfter(read.context.request) <==> r.close
  {
    HeaderBlockRoundTrip(m, path, query, v, r, order, now);
    ConnectionPrinted(r);
    ClosesByVersion(Parse(FRESH, JoinLine(m, path, query, v) + CRLF + r.HeaderBlock(order), now).context.request);
  }

  lemma ConnectionPrinted(r: Response)
    requires "Connection" !in r.headers
    ensures "Connection" in r.Fields() && r.Fields()["Connection"] == if r.close then "close" else "Keep-Alive"
  {
  }

  // ---- A connection's reads ----

  /** What onMessage keeps between reads, and the requests it has answered. */
  datatype Session = Session(context: Context, buffered: string, answered: seq<Request>, failed: bool)

  const OPENED: Session := Session(FRESH, "", [], false)

  /** onMessage, as far as requests go: parse at most one, answer it and reset. */
  function OnRead(s: Session, chunk: string, now: int): (r: Session)
    requires Ready(s.context)
    ensures !r.failed ==> Ready(r.context)
  {
    var p := Parse(s.context, s.buffered + chunk, now);
    if p.context.phase == GotAll then Session(FRESH, p.rest, s.answered + [p.context.request], false)
    else Session(p.context, p.rest, s.answered, !p.ok)
  }

  /** A session reads until a request is refused. */
  function OnReads(s: Session, chunks: seq<string>, times: seq<int>): Session
    requires Ready(s.context) && |times| == |chunks|
    decreases |chunks|
  {
    if chunks == [] then s
    else
      var r := OnRead(s, chunks[0], times[0]);
      if r.failed then r else OnReads(r, chunks[1..], times[1..])
  }

  /** How many of the messages, laid end to end, lie within the first n bytes. */
  function Complete(ms: seq<Message>, n: int): nat {
    if ms == [] || n < |ms[0].Print()| then 0 else 1 + Complete(ms[1..], n - |ms[0].Print()|)
  }

  /** How many get answered: each read answers one message if at least one is complete, and no more than one. */
  function Answers(ms: seq<Message>, pending: int, chunks: seq<string>): nat
    decreases |chunks|
  {
    if chunks == [] then 0
    else
      var n := pending + |chunks[0]|;
      if Complete(ms, n) == 0 then Answers(ms, n, chunks[1..])
      else 1 + Answers(ms[1..], n - |ms[0].Print()|, chunks[1..])
  }

  function TimelessRequest(r: Request): Request {
    r.(receiveTime := 0)
  }

  function TimelessAll(rs: seq<Request>): seq<Request> {
    if rs == [] then [] else [TimelessRequest(rs[0])] + TimelessAll(rs[1..])
  }

  function Expected(ms: seq<Message>): seq<Request> {
    if ms == [] then [] else [ms[0].Meaning(0)] + Expected(ms[1..])
  }

  ghost predicate Same(p: Outcome, q: Outcome) {
    p.ok == q.ok && p.rest == q.rest && Timeless(p.context) == Timeless(q.context)
  }

  ghost predicate AgreesOn(s: Session, pending: string, more: string, t: int, u: int)
    requires Ready(s.context)
  {
    Same(Parse(s.context, s.buffered + more, t), Parse(FRESH, pending + more, u))
  }

  /** A session that goes on as if it were fresh and had the pending bytes before it. */
  ghost predicate Stands(s: Session, pending: string) {
    && Ready(s.context) && !s.failed
    && forall more, t, u :: AgreesOn(s, pending, more, t, u)
  }

  lemma FreshStands(pending: string, answered: seq<Request>)
    ensures Stands(Session(FRESH, pending, answered, false), pending)
  {
    var s := Session(FRESH, pending, answered, false);
    forall more, t, u ensures AgreesOn(s, pending, more, t, u) {
      ParseIgnoresClock(FRESH, FRESH, pending + more, t, u);
    }
  }

  /** Part of a message is never refused and never complete. */
  lemma PartOfMessage(m: Message, part: string, missing: string, now: int)
    requires m.WellFormed() && part + missing == m.Print() && missing != ""
    ensures !Parse(FRESH, part, now).Stopped()
  {
    ParsePrinted(m, "", now);
    assert m.Print() + "" == part + missing;
    ParseConcat(FRESH, part, missing, now);
  }

  lemma GoOn(c: Context, head: string, more: string, whole: string, other: Outcome, now: int, t: int)
    requires Ready(c) && whole == head + more && !Parse(c, head, now).Stopped()
    requires Same(Parse(c, whole, now), other)
    ensures var p := Parse(c, head, now); Same(Parse(p.context, p.rest + more, t), other)
  {
    var p := Parse(c, head, now);
    ParseConcat(c, head, more, now);
    ParseIgnoresClock(p.context, p.context, p.rest + more, now, t);
  }

  lemma Assoc(a: string, b: string, c: string)
    ensures a + (b + c) == a + b + c
  {
  }

  lemma AgreesAfter(s: Session, pending: string, chunk: string, now: int, more: string, t: int, u: int)
    requires Ready(s.context) && !Parse(s.context, s.buffered + chunk, now).Stopped()
    requires AgreesOn(s, pending, chunk + more, now, u)
    ensures var p := Parse(s.context, s.buffered + chunk, now);
            AgreesOn(Session(p.context, p.rest, s.answered, false), pending + chunk, more, t, u)
  {
    var head, known := s.buffered + chunk, pending + chunk;
    Assoc(s.buffered, chunk, more);
    Assoc(pending, chunk, more);
    GoOn(s.context, head, more, s.buffered + (chunk + more), Parse(FRESH, known + more, u), now, t);
  }

  lemma StandsOn(s: Session, pending: string, chunk: string, now: int) returns (r: Session)
    requires Stands(s, pending) && !Parse(FRESH, pending + chunk, now).Stopped()
    ensures r == OnRead(s, chunk, now) && r.answered == s.answered && Stands(r, pending + chunk)
  {
    assert AgreesOn(s, pending, chunk, now, now);
    var p := Parse(s.context, s.buffered + chunk, now);
    r := Session(p.context, p.rest, s.answered, false);
    forall more, t, u ensures AgreesOn(r, pending + chunk, more, t, u) {
      assert AgreesOn(s, pending, chunk + more, now, u);
      AgreesAfter(s, pending, chunk, now, more, t, u);
    }
  }

  lemma AnswersNext(s: Session, pending: string, chunk: string, now: int, m: Message, rest: string)
    requires Stands(s, pending) && m.WellFormed() && pending + chunk == m.Print() + rest
    ensures var r := OnRead(s, chunk, now);
            && r.context == FRESH && r.buffered == rest && !r.failed
            && |r.answered| == |s.answered| + 1 && r.answered[..|s.answered|] == s.answered
            && TimelessRequest(r.answered[|s.answered|]) == m.Meaning(0)
  {
    ParsePrinted(m, rest, now);
    assert AgreesOn(s, pending, chunk, now, now);
  }

  lemma CutPrefix(p: string, q: string, fed: string, future: string)
    requires fed + future == p + q
    ensures |p| <= |fed| ==> fed == p + fed[|p|..] && fed[|p|..] + future == q
    ensures |fed| < |p| ==> p == fed + p[|fed|..]
  {
    var all := fed + future;
    assert all[..|fed|] == fed && all[|fed|..] == future;
    assert all[..|p|] == p && all[|p|..] == q;
    if |p| <= |fed| {
      assert all[|p|..] == fed[|p|..] + future;
    } else {
      assert p[..|fed|] == fed;
    }
  }

  /**
   * A session has answered, after what it had answered before, the first n messages in order; and if there are more of
   * them, it has answered nothing else and refused nothing.
   */
  ghost predicate AnsweredInOrder(before: seq<Request>, e: Session, ms: seq<Message>, n: nat) {
    && n <= |ms| && |before| + n <= |e.answered| && e.answered[..|before|] == before
    && TimelessAll(e.answered[|before|..|before| + n]) == Expected(ms[..n])
    && (n < |ms| ==> !e.failed && |e.answered| == |before| + n)
  }

  /** The bytes that arrive begin with these chunks. */
  ghost predicate BeginsWith(bytes: string, chunks: seq<string>)
    decreases |chunks|
  {
    chunks != [] ==>
      var n := |chunks[0]|;
      n <= |bytes| && bytes[..n] == chunks[0] && BeginsWith(bytes[n..], chunks[1..])
  }

  lemma {:induction false} BeginsWithFlattened(chunks: seq<string>, future: string)
    ensures BeginsWith(Flatten(chunks) + future, chunks)
    decreases |chunks|
  {
    if chunks != [] {
      var tail := Flatten(chunks[1..]) + future;
      assert Flatten(chunks) + future == chunks[0] + tail;
      assert (chunks[0] + tail)[|chunks[0]|..] == tail;
      BeginsWithFlattened(chunks[1..], future);
    }
  }

  lemma TakeOne(pending: string, bytes: string, chunks: seq<string>) returns (tail: string)
    requires chunks != [] && BeginsWith(bytes, chunks)
    ensures BeginsWith(tail, chunks[1..]) && (pending + chunks[0]) + tail == pending + bytes
  {
    tail := bytes[|chunks[0]|..];
    assert bytes == chunks[0] + tail;
    Assoc(pending, chunks[0], tail);
  }

  /** A read that ends with no complete message. */
  lemma ReadOn(s: Session, pending: string, ms: seq<Message>, more: string, chunk: string, now: int, tail: string)
      returns (r: Session, rest: string)
    requires Stands(s, pending) && ms != [] && forall m: Message :: m in ms ==> m.WellFormed()
    requires (pending + chunk) + tail == PrintAll(ms) + more && Complete(ms, |pending| + |chunk|) == 0
    ensures r == OnRead(s, chunk, now) && r.answered == s.answered
    ensures Stands(r, rest) && rest + tail == PrintAll(ms) + more && |rest| == |pending| + |chunk|
  {
    rest := pending + chunk;
    NotYet(ms, more, rest, tail, now);
    r := StandsOn(s, pending, chunk, now);
  }

  /** A read that ends with a complete message. */
  lemma ReadNext(s: Session, pending: string, ms: seq<Message>, more: string, chunk: string, now: int, tail: string)
      returns (r: Session, rest: string)
    requires Stands(s, pending) && forall m: Message :: m in ms ==> m.WellFormed()
    requires (pending + chunk) + tail == PrintAll(ms) + more && Complete(ms, |pending| + |chunk|) > 0
    ensures r == OnRead(s, chunk, now) && Stands(r, rest) && rest + tail == PrintAll(ms[1..]) + more
    ensures |rest| == |pending| + |chunk| - |ms[0].Print()|
    ensures |r.answered| == |s.answered| + 1 && r.answered[..|s.answered|] == s.answered
    ensures TimelessRequest(r.answered[|s.answered|]) == ms[0].Meaning(0)
  {
    var fed, p := pending + chunk, ms[0].Print();
    FirstOf(ms, more);
    CutPrefix(p, PrintAll(ms[1..]) + more, fed, tail);
    rest := fed[|p|..];
    r := OnRead(s, chunk, now);
    AnswersNext(s, pending, chunk, now, ms[0], rest);
    FreshStands(rest, r.answered);
    assert r == Session(FRESH, rest, r.answered, false);
  }

  lemma FirstOf(ms: seq<Message>, more: string)
    requires ms != []
    ensures PrintAll(ms) + more == ms[0].Print() + (PrintAll(ms[1..]) + more)
  {
    Assoc(ms[0].Print(), PrintAll(ms[1..]), more);
  }

  lemma NoAnswer(ms: seq<Message>, pending: int, chunks: seq<string>, left: int)
    requires chunks != [] && Complete(ms, pending + |chunks[0]|) == 0 && left == pending + |chunks[0]|
    ensures Answers(ms, pending, chunks) == Answers(ms, left, chunks[1..])
  {
  }

  lemma OneAnswer(ms: seq<Message>, pending: int, chunks: seq<string>, left: int)
    requires chunks != [] && Complete(ms, pending + |chunks[0]|) > 0
    requires left == pending + |chunks[0]| - |ms[0].Print()|
    ensures Answers(ms, pending, chunks) == 1 + Answers(ms[1..], left, chunks[1..])
  {
  }

  lemma {:induction false} NoneToAnswer(pending: int, chunks: seq<string>)
    ensures Answers([], pending, chunks) == 0
    decreases |chunks|
  {
    if chunks != [] {
      NoneToAnswer(pending + |chunks[0]|, chunks[1..]);
    }
  }

  /** Reads never take an answer back. */
  lemma {:induction false} AnswersStay(s: Session, chunks: seq<string>, times: seq<int>)
    requires Ready(s.context) && |times| == |chunks|
    ensures s.answered <= OnReads(s, chunks, times).answered
    decreases |chunks|
  {
    if chunks != [] {
      var r := OnRead(s, chunks[0], times[0]);
      if !r.failed {
        AnswersStay(r, chunks[1..], times[1..]);
      }
    }
  }

  lemma {:induction false} ReadsFrom(
      s: Session, pending: string, bytes: string, ms: seq<Message>, more: string, chunks: seq<string>, times: seq<int>)
      returns (e: Session, n: nat)
    requires Stands(s, pending) && |times| == |chunks|
    requires forall m: Message :: m in ms ==> m.WellFormed()
    requires pending + bytes == PrintAll(ms) + more && BeginsWith(bytes, chunks)
    ensures e == OnReads(s, chunks, times) && n == Answers(ms, |pending|, chunks)
    ensures AnsweredInOrder(s.answered, e, ms, n)
    decreases |chunks|
  {
    if ms == [] {
      e, n := OnReads(s, chunks, times), 0;
      NoneToAnswer(|pending|, chunks);
      AnswersStay(s, chunks, times);
      NothingAnswered(s, e, ms);
    } else if chunks == [] {
      e, n := s, 0;
      NothingAnswered(s, e, ms);
    } else {
      var r, rest;
      var tail := TakeOne(pending, bytes, chunks);
      if Complete(ms, |pending| + |chunks[0]|) == 0 {
        r, rest := ReadOn(s, pending, ms, more, chunks[0], times[0], tail);
        e, n := ReadsFrom(r, rest, tail, ms, more, chunks[1..], times[1..]);
        NoAnswer(ms, |pending|, chunks, |rest|);
      } else {
        r, rest := ReadNext(s, pending, ms, more, chunks[0], times[0], tail);
        e, n := ReadsFrom(r, rest, tail, ms[1..], more, chunks[1..], times[1..]);
        OneMore(s.answered, r.answered, e, ms, n);
        OneAnswer(ms, |pending|, chunks, |rest|);
        n := n + 1;
      }
    }
  }

  /**
   * However a stream of messages is cut into reads, onMessage answers them in order, each once and from its own
   * bytes alone, one for each read that ends with a complete message at hand; whatever comes behind them.
   */
  lemma ReadsAnswerInOrder(ms: seq<Message>, more: string, chunks: seq<string>, times: seq<int>, future: string)
    requires |times| == |chunks| && forall m: Message :: m in ms ==> m.WellFormed()
    requires Flatten(chunks) + future == PrintAll(ms) + more
    ensures AnsweredInOrder([], OnReads(OPENED, chunks, times), ms, Answers(ms, 0, chunks))
  {
    FreshStands("", []);
    var whole := Flatten(chunks) + future;
    assert "" + whole == whole;
    BeginsWithFlattened(chunks, future);
    var e, n := ReadsFrom(OPENED, "", whole, ms, more, chunks, times);
  }

  lemma NothingAnswered(s: Session, e: Session, ms: seq<Message>)
    requires s.answered <= e.answered && (ms != [] ==> e == s && !s.failed)
    ensures AnsweredInOrder(s.answered, e, ms, 0)
  {
  }

  /** No message is complete, so parsing asks for more. */
  lemma NotYet(ms: seq<Message>, more: string, fed: string, tail: string, now: int)
    requires ms != [] && forall m: Message :: m in ms ==> m.WellFormed()
    requires fed + tail == PrintAll(ms) + more && Complete(ms, |fed|) == 0
    ensures !Parse(FRESH, fed, now).Stopped()
  {
    var p := ms[0].Print();
    FirstOf(ms, more);
    CutPrefix(p, PrintAll(ms[1..]) + more, fed, tail);
    PartOfMessage(ms[0], fed, p[|fed|..], now);
  }

  lemma OneMore(a: seq<Request>, b: seq<Request>, e: Session, ms: seq<Message>, n: nat)
    requires ms != [] && AnsweredInOrder(b, e, ms[1..], n)
    requires |b| == |a| + 1 && b[..|a|] == a && TimelessRequest(b[|a|]) == ms[0].Meaning(0)
    ensures AnsweredInOrder(a, e, ms, n + 1)
  {
    var own := e.answered[|a|..|a| + n + 1];
    assert own[0] == b[|a|] && own[1..] == e.answered[|b|..|b| + n];
    assert ms[..n + 1][1..] == ms[1..][..n];
    assert e.answered[..|a|] == b[..|a|];
  }

  /** No read completes two messages. */
  ghost predicate OneAtATime(ms: seq<Message>, pending: int, chunks: seq<string>)
    decreases |chunks|
  {
    chunks != [] ==>
      var n := pending + |chunks[0]|;
      if Complete(ms, n) == 0 then OneAtATime(ms, n, chunks[1..])
      else Complete(ms, n) == 1 && OneAtATime(ms[1..], n - |ms[0].Print()|, chunks[1..])
  }

  /** After the first k reads every message that is complete has been answered. */
  ghost predicate UpToDate(ms: seq<Message>, pending: int, chunks: seq<string>, k: nat)
    requires k <= |chunks|
  {
    Answers(ms, pending, chunks[..k]) == Complete(ms, pending + |Flatten(chunks[..k])|)
  }

  /** What happens from the second read on, seen from before the first. */
  lemma AfterFirst(ms: seq<Message>, pending: int, chunks: seq<string>, k: nat)
    requires k < |chunks| && Complete(ms, pending + |chunks[0]|) <= 1
    ensures var n := pending + |chunks[0]|;
            UpToDate(ms, pending, chunks, k + 1) <==>
            if Complete(ms, n) == 0 then UpToDate(ms, n, chunks[1..], k)
            else UpToDate(ms[1..], n - |ms[0].Print()|, chunks[1..], k)
  {
    var n := pending + |chunks[0]|;
    var prefix, later := chunks[..k + 1], chunks[1..][..k];
    assert prefix[1..] == later && prefix[0] == chunks[0];
    assert pending + |Flatten(prefix)| == n + |Flatten(later)|;
    if Complete(ms, n) == 0 {
      NoAnswer(ms, pending, prefix, n);
    } else {
      var left := n - |ms[0].Print()|;
      OneAnswer(ms, pending, prefix, left);
      assert Complete(ms, n + |Flatten(later)|) == 1 + Complete(ms[1..], left + |Flatten(later)|);
    }
  }

  lemma {:induction false} OneAtATimeKeepsUp(ms: seq<Message>, pending: int, chunks: seq<string>, k: nat)
    requires Complete(ms, pending) == 0 && OneAtATime(ms, pending, chunks) && k <= |chunks|
    ensures UpToDate(ms, pending, chunks, k)
    decreases k
  {
    if k == 0 {
      assert chunks[..0] == [] && Flatten([]) == "";
    } else {
      var n := pending + |chunks[0]|;
      AfterFirst(ms, pending, chunks, k - 1);
      if Complete(ms, n) == 0 {
        OneAtATimeKeepsUp(ms, n, chunks[1..], k - 1);
      } else {
        OneAtATimeKeepsUp(ms[1..], n - |ms[0].Print()|, chunks[1..], k - 1);
      }
    }
  }

  lemma TwoAtOnceFallsBehind(ms: seq<Message>, pending: int, chunks: seq<string>)
    requires chunks != [] && Complete(ms, pending + |chunks[0]|) > 1
    ensures !UpToDate(ms, pending, chunks, 1)
  {
    var one := [chunks[0]];
    assert chunks[..1] == one && one[1..] == [];
    OneAnswer(ms, pending, one, pending + |one[0]| - |ms[0].Print()|);
    assert Flatten(one) == chunks[0] + Flatten([]) && |Flatten(one)| == |chunks[0]|;
  }

  lemma {:induction false} FallsBehind(ms: seq<Message>, pending: int, chunks: seq<string>) returns (k: nat)
    requires Complete(ms, pending) == 0 && !OneAtATime(ms, pending, chunks)
    ensures k <= |chunks| && !UpToDate(ms, pending, chunks, k)
    decreases |chunks|
  {
    var n := pending + |chunks[0]|;
    if Complete(ms, n) > 1 {
      TwoAtOnceFallsBehind(ms, pending, chunks);
      k := 1;
    } else {
      if Complete(ms, n) == 0 {
        k := FallsBehind(ms, n, chunks[1..]);
      } else {
        k := FallsBehind(ms[1..], n - |ms[0].Print()|, chunks[1..]);
      }
      AfterFirst(ms, pending, chunks, k);
      k := k + 1;
    }
  }

  /** Each read leaves every complete message answered, if and only if no read completes two. */
  lemma AllAnswered(ms: seq<Message>, pending: int, chunks: seq<string>)
    requires Complete(ms, pending) == 0
    ensures (forall k | 0 <= k <= |chunks| :: UpToDate(ms, pending, chunks, k)) <==> OneAtATime(ms, pending, chunks)
  {
    if OneAtATime(ms, pending, chunks) {
      forall k | 0 <= k <= |chunks| ensures UpToDate(ms, pending, chunks, k) {
        OneAtATimeKeepsUp(ms, pending, chunks, k);
      }
    } else {
      var k := FallsBehind(ms, pending, chunks);
    }
  }

  lemma FirstRead(chunk: string, now: int)
    ensures var p := Parse(FRESH, chunk, now);
            OnRead(OPENED, chunk, now) ==
            if p.context.phase == GotAll then Session(FRESH, p.rest, [p.context.request], false)
            else Session(p.context, p.rest, [], !p.ok)
  {
    assert OPENED.buffered + chunk == chunk;
  }

  /** Two messages in one read: the second stays in the buffer, unanswered, until more bytes come. */
  lemma PipelinedMessageWaits(a: Message, b: Message, now: int)
    requires a.WellFormed() && b.WellFormed()
    ensures OnRead(OPENED, a.Print() + b.Print(), now) == Session(FRESH, b.Print(), [a.Meaning(now)], false)
  {
    ParsePrinted(a, b.Print(), now);
    FirstRead(a.Print() + b.Print(), now);
  }

  // ---- The answers on the connection ----

  function ResponseText(r: Response, order: seq<string>): string
    requires forall k :: k in order ==> k in r.headers
  {
    r.StatusLine() + r.HeaderBlock(order)
  }

  /** What goes out for a request: a text, and whether the connection is shut after it. */
  datatype Reply = Reply(text: string, close: bool)

  type Replier = Request -> Reply

  ghost predicate Orders(walk: Walk) {
    forall m :: Walks(walk(m), m)
  }

  /** One way to walk a map: take any key, then walk the rest. */
  ghost function AnyOrder(m: map<string, string>): seq<string>
    decreases |m|
  {
    if m == map[] then []
    else
      var k :| k in m;
      assert |m - {k}| < |m| by {
        assert (m - {k}).Keys == m.Keys - {k};
      }
      [k] + AnyOrder(m - {k})
  }

  lemma {:induction false} AnyOrderWalks(m: map<string, string>)
    ensures Walks(AnyOrder(m), m)
    decreases |m|
  {
    if m != map[] {
      var order := AnyOrder(m);
      var k := order[0];
      assert k in m && order == [k] + AnyOrder(m - {k});
      assert (m - {k}).Keys == m.Keys - {k};
      AnyOrderWalks(m - {k});
    }
  }

  /** What is asked of a walk can be met. */
  lemma SomeWalk() returns (walk: Walk)
    ensures Orders(walk)
  {
    walk := (m: map<string, string>) => AnyOrder(m);
    forall m ensures Walks(walk(m), m) {
      AnyOrderWalks(m);
    }
  }

  /** The callback's response, printed. */
  ghost function Printed(callback: HttpCallback, walk: Walk): Replier
    requires Orders(walk)
  {
    req =>
      var r := Answer(callback, req);
      assert Walks(walk(r.headers), r.headers);
      Reply(ResponseText(r, walk(r.headers)), r.close)
  }

  /** The text is the callback's response, status line first and its body last, and it closes when the response does. */
  lemma PrintedReply(callback: HttpCallback, walk: Walk, req: Request)
    requires Orders(walk)
    ensures var r, p := Answer(callback, req), Printed(callback, walk)(req);
            && p.close == r.close && r.StatusLine() <= p.text
            && |r.body| <= |p.text| && p.text[|p.text| - |r.body|..] == r.body
  {
    var r := Answer(callback, req);
    var order := walk(r.headers);
    assert Walks(order, r.headers);
    var head := r.StatusLine() + (r.StandingLines() + HeaderLines(order, r.headers) + CRLF);
    Assoc(r.StatusLine(), r.StandingLines() + HeaderLines(order, r.headers) + CRLF, r.body);
    assert ResponseText(r, order) == head + r.body;
  }

  function Replies(reply: Replier, rs: seq<Request>): seq<string> {
    if rs == [] then [] else [reply(rs[0]).text] + Replies(reply, rs[1..])
  }

  lemma {:induction false} RepliesOneMore(reply: Replier, rs: seq<Request>, r: Request)
    ensures Replies(reply, rs + [r]) == Replies(reply, rs) + [reply(r).text]
  {
    if rs == [] {
      assert rs + [r] == [r] && [r][1..] == [];
    } else {
      assert (rs + [r])[1..] == rs[1..] + [r];
      RepliesOneMore(reply, rs[1..], r);
    }
  }

  /** A message sent, `write` being what the kernel takes of a message of a given length. */
  function SendStep(text: string, write: nat -> int): Step {
    Send(text, write(|text|))
  }

  function RefusalCalls(write: nat -> int): seq<Step> {
    [SendStep(BAD_REQUEST, write), Shutdown]
  }

  function ReplyCalls(reply: Replier, req: Request, write: nat -> int): seq<Step> {
    [SendStep(reply(req).text, write)] + if reply(req).close then [Shutdown] else []
  }

  /** The calls onMessage makes on the connection in a read that takes the session from s to r. */
  function Calls(reply: Replier, s: Session, r: Session, write: nat -> int): seq<Step> {
    if r.failed then RefusalCalls(write)
    else if |r.answered| > |s.answered| then ReplyCalls(reply, r.answered[|s.answered|], write)
    else []
  }

  /** A connection's reads, and the loop's calls of handleWrite between them. */
  datatype Event = Read(chunk: string, now: int, write: nat -> int) | Drain(wrote: int)

  ghost function Chunks(events: seq<Event>): seq<string> {
    if events == [] then []
    else (match events[0] case Read(chunk, _, _) => [chunk] case Drain(_) => []) + Chunks(events[1..])
  }

  ghost function Times(events: seq<Event>): (times: seq<int>)
    ensures |times| == |Chunks(events)|
  {
    if events == [] then []
    else (match events[0] case Read(_, now, _) => [now] case Drain(_) => []) + Times(events[1..])
  }

  /** All the steps the connection makes in them. */
  ghost function Steps(reply: Replier, s: Session, events: seq<Event>): seq<Step>
    requires Ready(s.context)
    decreases |events|
  {
    if events == [] then []
    else
      match events[0]
      case Read(chunk, now, write) =>
        var r := OnRead(s, chunk, now);
        Calls(reply, s, r, write) + if r.failed then [] else Steps(reply, r, events[1..])
      case Drain(wrote) => [HandleWrite(wrote)] + Steps(reply, s, events[1..])
  }

  lemma {:induction false} SentConcat(a: seq<Step>, b: seq<Step>)
    ensures Sent(a + b) == Sent(a) + Sent(b)
  {
    if a == [] {
      assert a + b == b;
    } else {
      assert (a + b)[1..] == a[1..] + b;
      SentConcat(a[1..], b);
    }
  }

  lemma ReplyCallsSend(reply: Replier, req: Request, write: nat -> int)
    ensures Sent(ReplyCalls(reply, req, write)) == [reply(req).text]
  {
    assert ReplyCalls(reply, req, write)[1..] == if reply(req).close then [Shutdown] else [];
    assert Sent([Shutdown]) == [] + Sent([Shutdown][1..]);
  }

  /** What a refused request is answered with. */
  function Refusal(failed: bool): seq<string> {
    if failed then [BAD_REQUEST] else []
  }

  /** A connected connection is shut down by a read exactly when that refuses, or answers with a reply that closes. */
  lemma ReadShutsDown(reply: Replier, c: Conn, s: Session, chunk: string, now: int, write: nat -> int)
    requires Ready(s.context) && c.phase == Connected
    requires TcpConnections.LegalRun(c, Calls(reply, s, OnRead(s, chunk, now), write))
    ensures var r := OnRead(s, chunk, now);
            var e := TcpConnections.After(c, Calls(reply, s, r, write));
            var closing := r.failed || (r.answered != s.answered && reply(r.answered[|s.answered|]).close);
            e.phase == if closing then TcpConnections.Disconnecting else Connected
  {
    var r := OnRead(s, chunk, now);
    var calls := Calls(reply, s, r, write);
    var closing := r.failed || (r.answered != s.answered && reply(r.answered[|s.answered|]).close);
    assert Shutdown in calls <==> closing by {
      if closing {
        assert calls[1] == Shutdown;
      }
    }
    assert forall a :: a in calls ==> (TcpConnections.Closes(a) <==> a == Shutdown) && a != Destroy;
    PhaseOfConnected(c, calls);
  }

  /** What a session has sent: the replies to the requests it answered, and the refusal. */
  function Output(reply: Replier, s: Session): seq<string> {
    Replies(reply, s.answered) + Refusal(s.failed)
  }

  lemma RefusalSent(write: nat -> int)
    ensures Sent(RefusalCalls(write)) == [BAD_REQUEST]
  {
    var calls := RefusalCalls(write);
    assert calls[1..] == [Shutdown] && calls[1..][1..] == [];
    assert Sent([Shutdown]) == [] + Sent([]);
  }

  /** A read sends the reply to the request it answers, or the refusal. */
  lemma ReadSends(reply: Replier, s: Session, chunk: string, now: int, write: nat -> int)
    requires Ready(s.context) && !s.failed
    ensures var r := OnRead(s, chunk, now);
            Output(reply, r) == Output(reply, s) + Sent(Calls(reply, s, r, write))
  {
    var r := OnRead(s, chunk, now);
    if r.failed {
      RefusalSent(write);
    } else if |r.answered| > |s.answered| {
      var req := r.answered[|s.answered|];
      assert r.answered == s.answered + [req];
      RepliesOneMore(reply, s.answered, req);
      ReplyCallsSend(reply, req, write);
    }
  }

  /** The session after these events. */
  ghost function After(s: Session, events: seq<Event>): Session
    requires Ready(s.context)
  {
    OnReads(s, Chunks(events), Times(events))
  }

  lemma AfterRead(s: Session, events: seq<Event>)
    requires Ready(s.context) && events != [] && events[0].Read?
    ensures var r := OnRead(s, events[0].chunk, events[0].now);
            After(s, events) == if r.failed then r else After(r, events[1..])
  {
    assert Chunks(events)[1..] == Chunks(events[1..]) && Times(events)[1..] == Times(events[1..]);
  }

  lemma AfterDrain(s: Session, events: seq<Event>)
    requires Ready(s.context) && events != [] && events[0].Drain?
    ensures After(s, events) == After(s, events[1..])
  {
    assert Chunks(events) == Chunks(events[1..]) && Times(events) == Times(events[1..]);
  }

  lemma Chained(a: seq<string>, b: seq<string>, c: seq<string>)
    ensures a + b + c == a + (b + c)
  {
  }

  lemma SendsFromRead(reply: Replier, s: Session, events: seq<Event>)
    requires Ready(s.context) && !s.failed && events != [] && events[0].Read?
    requires var r := OnRead(s, events[0].chunk, events[0].now);
             r.failed || Sends(reply, r, events[1..])
    ensures Sends(reply, s, events)
  {
    var write, r := events[0].write, OnRead(s, events[0].chunk, events[0].now);
    var calls, later := Calls(reply, s, r, write), if r.failed then [] else Steps(reply, r, events[1..]);
    AfterRead(s, events);
    ReadSends(reply, s, events[0].chunk, events[0].now, write);
    SentConcat(calls, later);
    if r.failed {
      assert calls + later == calls;
    } else {
      Chained(Output(reply, s), Sent(calls), Sent(later));
    }
  }

  ghost predicate Sends(reply: Replier, s: Session, events: seq<Event>)
    requires Ready(s.context)
  {
    Output(reply, After(s, events)) == Output(reply, s) + Sent(Steps(reply, s, events))
  }

  lemma SendsNothing(reply: Replier, s: Session)
    requires Ready(s.context)
    ensures Sends(reply, s, [])
  {
    var out := Output(reply, s);
    assert out + [] == out;
  }

  lemma SentDrain(wrote: int, steps: seq<Step>)
    ensures Sent([HandleWrite(wrote)] + steps) == Sent(steps)
  {
    assert ([HandleWrite(wrote)] + steps)[1..] == steps;
  }

  lemma SendsFromDrain(reply: Replier, s: Session, events: seq<Event>)
    requires Ready(s.context) && events != [] && events[0].Drain? && Sends(reply, s, events[1..])
    ensures Sends(reply, s, events)
  {
    AfterDrain(s, events);
    SentDrain(events[0].wrote, Steps(reply, s, events[1..]));
  }

  /** A session sends the reply to each request it answers, in order, then the refusal if any, and nothing else. */
  lemma {:induction false} SessionSends(reply: Replier, s: Session, events: seq<Event>)
    requires Ready(s.context) && !s.failed
    ensures Sends(reply, s, events)
    decreases |events|
  {
    if events == [] {
      SendsNothing(reply, s);
    } else if events[0].Read? {
      var r := OnRead(s, events[0].chunk, events[0].now);
      if !r.failed {
        SessionSends(reply, r, events[1..]);
      }
      SendsFromRead(reply, s, events);
    } else {
      SessionSends(reply, s, events[1..]);
      SendsFromDrain(reply, s, events);
    }
  }

  lemma OpenedSends(reply: Replier, events: seq<Event>)
    ensures var s := After(OPENED, events);
            Output(reply, s) == Sent(Steps(reply, OPENED, events))
  {
    SessionSends(reply, OPENED, events);
    assert Output(reply, OPENED) == [];
  }

  /** Everything a session does to the connection it does on the loop's thread. */
  lemma {:induction false} StepsOnLoop(reply: Replier, s: Session, events: seq<Event>)
    requires Ready(s.context)
    ensures forall a :: a in Steps(reply, s, events) ==> !a.ForeignSend? && !a.LateSend?
    decreases |events|
  {
    if events != [] {
      match events[0] {
        case Read(chunk, now, write) =>
          var r := OnRead(s, chunk, now);
          if !r.failed {
            StepsOnLoop(reply, r, events[1..]);
          }
        case Drain(wrote) =>
          StepsOnLoop(reply, s, events[1..]);
      }
    }
  }

  /**
   * However a stream that begins with these messages is cut into reads, with writing in between, the messages are
   * answered in order; and the connection takes on exactly the replies to all that was answered, in order, and the
   * refusal of what was refused, if and only if each read that sends finds the connection open, nothing waiting to be
   * written, and a write() that succeeds. What it has taken on is what it has written and then what waits.
   */
  lemma RepliesInOrder(
      reply: Replier, c: Conn, ms: seq<Message>, more: string, events: seq<Event>, future: string)
    requires Conserved(c) && TcpConnections.LegalRun(c, Steps(reply, OPENED, events))
    requires Flatten(Chunks(events)) + future == PrintAll(ms) + more
    requires forall m: Message :: m in ms ==> m.WellFormed()
    ensures var s, steps := After(OPENED, events), Steps(reply, OPENED, events);
            var e := TcpConnections.After(c, steps);
            && AnsweredInOrder([], s, ms, Answers(ms, 0, Chunks(events)))
            && (e.accepted == c.accepted + Output(reply, s) <==> AllMeet(c, steps))
            && e.wire + e.output == Flatten(e.accepted)
  {
    OutputConservation(c, Steps(reply, OPENED, events));
    ReadsAnswerInOrder(ms, more, Chunks(events), Times(events), future);
    OpenedSends(reply, events);
    NothingDropped(c, Steps(reply, OPENED, events));
    StepsOnLoop(reply, OPENED, events);
    DecidedOnLoop(c, Steps(reply, OPENED, events));
  }

  lemma FourHundred()
    ensures Digits(400) == "400"
  {
    assert Digits(4) == "4" && Digits(40) == "40";
  }

  lemma BadRequestLine(d: string)
    requires d == "400"
    ensures Formatted("HTTP/1.1 " + d + " ") == "HTTP/1.1 400 "
  {
  }

  /** The refusal is a response line with the number of a bad request, and nothing else. */
  lemma RefusalIsAResponse()
    ensures BAD_REQUEST == Response(400, "Bad Request", true, map[], "").StatusLine() + CRLF
  {
    FourHundred();
    BadRequestLine(Digits(400));
    assert "HTTP/1.1 400 " + "Bad Request" + CRLF + CRLF == BAD_REQUEST;
  }

  // ---- The class ----

  lemma FromEmpty(a: string, b: string)
    ensures "" + a + b == a + b
  {
  }

  class HttpServer {
    const httpCallback: HttpCallback
    const walk: Walk

    ghost predicate Valid() {
      Orders(walk)
    }

    constructor (httpCallback: HttpCallback, walk: Walk)
      requires Orders(walk)
      ensures Valid() && this.httpCallback == httpCallback && this.walk == walk
    {
      this.httpCallback, this.walk := httpCallback, walk;
    }

    method Respond(r: Response) returns (response: HttpResponse)
      ensures fresh(response) && response.View() == r
    {
      response := new HttpResponse(r.close);
      response.statusCode, response.statusMessage := r.status, r.message;
      response.headers, response.body := r.headers, r.body;
    }

    /** Print a response into a buffer of its own. */
    method Print(r: Response) returns (text: string)
      requires Valid()
      ensures Walks(walk(r.headers), r.headers) && text == ResponseText(r, walk(r.headers))
    {
      var order := walk(r.headers);
      var response := Respond(r);
      var buf := new Buffer();
      response.AppendToBuffer(buf, order);
      text := buf.RetrieveAsString();
      FromEmpty(r.StatusLine(), r.HeaderBlock(order));
    }

    /** The calls are legal ones, and the connection has made them. */
    ghost predicate Made(c: Conn, calls: seq<Step>, d: Conn) {
      TcpConnections.LegalRun(c, calls) && TcpConnections.After(c, calls) == d
    }

    lemma MadeOne(c: Conn, a: Step)
      requires Enabled(c, a)
      ensures Made(c, [a], Next(c, a))
    {
      assert [a][1..] == [];
    }

    lemma MadeTwo(c: Conn, a: Step, b: Step)
      requires Enabled(c, a) && Enabled(Next(c, a), b)
      ensures Made(c, [a, b], Next(Next(c, a), b))
    {
      MadeOne(Next(c, a), b);
      assert [a, b][1..] == [b];
    }

    method OnRequest(conn: TcpConnection, req: Request, write: nat -> int)
      requires Valid() && conn.Valid() && forall n: nat :: write(n) <= n
      modifies conn.Touched()
      ensures conn.Valid() && fresh(conn.Touched() - old(conn.Touched()))
      ensures Made(old(conn.View()), ReplyCalls(Printed(httpCallback, walk), req, write), conn.View())
    {
      var r := Answer(httpCallback, req);
      var text := Print(r);
      ghost var c := conn.View();
      conn.Send(text, write(|text|));
      if r.close {
        conn.Shutdown();
        MadeTwo(c, SendStep(text, write), Shutdown);
      } else {
        MadeOne(c, SendStep(text, write));
      }
    }

    method Refuse(conn: TcpConnection, write: nat -> int)
      requires conn.Valid() && forall n: nat :: write(n) <= n
      modifies conn.Touched()
      ensures conn.Valid() && fresh(conn.Touched() - old(conn.Touched()))
      ensures Made(old(conn.View()), RefusalCalls(write), conn.View())
    {
      ghost var c := conn.View();
      var text := BAD_REQUEST;
      conn.Send(text, write(|text|));
      conn.Shutdown();
      MadeTwo(c, SendStep(text, write), Shutdown);
    }

    method AnswerAndReset(conn: TcpConnection, context: HttpContext, write: nat -> int)
      requires Valid() && conn.Valid() && forall n: nat :: write(n) <= n
      requires context.phase == GotAll
      modifies conn.Touched(), context, context.request
      ensures conn.Valid() && fresh(conn.Touched() - old(conn.Touched()))
      ensures Made(old(conn.View()), ReplyCalls(Printed(httpCallback, walk), old(context.request.View()), write),
                   conn.View())
      ensures context.View() == FRESH
    {
      OnRequest(conn, context.request.View(), write);
      context.Reset();
    }

    /** What onMessage calls on the connection, by the verdict and the context the parser leaves. */
    ghost function Reaction(ok: bool, context: Context, write: nat -> int): seq<Step>
      requires Valid()
    {
      if !ok then RefusalCalls(write)
      else if context.phase == GotAll then ReplyCalls(Printed(httpCallback, walk), context.request, write)
      else []
    }

    lemma ReadReacts(s: Session, chunk: string, now: int, write: nat -> int)
      requires Valid() && Ready(s.context)
      ensures var p := Parse(s.context, s.buffered + chunk, now);
              Calls(Printed(httpCallback, walk), s, OnRead(s, chunk, now), write) == Reaction(p.ok, p.context, write)
    {
    }

    /** onMessage after the parser has run. */
    method React(conn: TcpConnection, context: HttpContext, ok: bool, write: nat -> int)
      requires Valid() && conn.Valid() && forall n: nat :: write(n) <= n
      requires !ok ==> context.phase == ExpectRequestLine
      modifies conn.Touched(), context, context.request
      ensures conn.Valid()
      ensures Made(old(conn.View()), Reaction(ok, old(context.View()), write), conn.View())
      ensures context.View() == if old(context.phase) == GotAll then FRESH else old(context.View())
    {
      if !ok {
        Refuse(conn, write);
      }
      if context.GetAll() {
        AnswerAndReset(conn, context, write);
      }
    }

    /** onMessage: one read's step of the session, and the calls on the connection that go with it. */
    method OnMessage(
        conn: TcpConnection, context: HttpContext, buf: Buffer, receiveTime: int, write: nat -> int,
        ghost s: Session, ghost chunk: string)
      requires Valid() && conn.Valid() && buf.Valid() && Ready(context.View())
      requires buf !in conn.Touched() && buf.storage !in conn.Touched()
      requires forall n: nat :: write(n) <= n
      requires s.context == context.View() && s.buffered + chunk == buf.Contents()
      modifies conn.Touched(), context, context.request, buf
      ensures conn.Valid() && buf.Valid()
      ensures var r := OnRead(s, chunk, receiveTime);
              && context.View() == r.context && buf.Contents() == r.buffered
              && Made(old(conn.View()), Calls(Printed(httpCallback, walk), s, r, write), conn.View())
    {
      ghost var p := Parse(context.View(), buf.Contents(), receiveTime);
      var ok := context.ParseRequest(buf, receiveTime);
      assert Outcome(ok, context.View(), buf.Contents()) == p;
      ReadReacts(s, chunk, receiveTime, write);
      React(conn, context, ok, write);
    }
  }
}
