/** The incremental request parser: wf_http_context.h and wf_http_context.cc. */
module HttpContexts {
  import opened Strings
  import opened Buffers
  import opened HttpRequests

  datatype Phase = ExpectRequestLine | ExpectHeaders | ExpectBody | GotAll

  datatype Context = Context(phase: Phase, request: Request)

  const FRESH: Context := Context(ExpectRequestLine, BLANK)

  const VERSION_PREFIX: string := "HTTP/1."

  function VersionOf(token: string): Version {
    if |token| != 8 || token[..7] != VERSION_PREFIX then Unknown
    else if token[7] == '1' then Http11
    else if token[7] == '0' then Http10
    else Unknown
  }

  function VersionString(v: Version): string {
    VERSION_PREFIX + match v case Http10 => "0" case Http11 => "1" case Unknown => ""
  }

  datatype LineResult = LineResult(ok: bool, request: Request)

  /** The request target cut at its question mark, and the version; setQuery is not called without a mark. */
  function AfterTarget(r: Request, target: string, token: string): LineResult {
    var mark := IndexOf(target, '?');
    var q := if mark < |target| then target[mark..] else r.query;
    var r1 := r.(path := target[..mark], query := q);
    var v := VersionOf(token);
    if v == Unknown then LineResult(false, r1) else LineResult(true, r1.(version := v))
  }

  function AfterMethod(r: Request, token: string, tail: string): LineResult {
    var m := MethodOf(token);
    var r1 := r.(method_ := m);
    var space := IndexOf(tail, ' ');
    if m == Invalid || space == |tail| then LineResult(false, r1)
    else AfterTarget(r1, tail[..space], tail[space + 1..])
  }

  /** processRequestLine. A refused line may leave the method, path and query set. */
  function RequestLine(r: Request, line: string): LineResult {
    var space := IndexOf(line, ' ');
    if space == |line| then LineResult(false, r) else AfterMethod(r, line[..space], line[space + 1..])
  }

  /** parseRequest may be entered again: the source's assertion in setMethod will hold. */
  predicate Ready(c: Context) {
    c.phase == ExpectHeaders || (c.phase == ExpectRequestLine && c.request.method_ == Invalid)
  }

  /** What one call of parseRequest leaves: its verdict, the context and the bytes still in the buffer. */
  datatype Outcome = Outcome(ok: bool, context: Context, rest: string) {
    predicate Stopped() {
      !ok || context.phase == GotAll
    }
  }

  /** One round of the loop that finds a complete line. */
  function OnLine(c: Context, line: string, now: int): (r: (bool, Context))
    requires Ready(c)
    ensures r.0 ==> r.1.phase == ExpectHeaders || r.1.phase == GotAll
    ensures !r.0 ==> r.1.phase == ExpectRequestLine
  {
    if c.phase == ExpectRequestLine then
      var l := RequestLine(c.request, line);
      if l.ok then (true, Context(ExpectHeaders, l.request.(receiveTime := now)))
      else (false, c.(request := l.request))
    else
      var colon := IndexOf(line, ':');
      if colon < |line| then (true, c.(request := WithHeader(c.request, line, colon)))
      else (true, c.(phase := GotAll))
  }

  /** parseRequest on a buffer's readable bytes. */
  function Parse(c: Context, bytes: string, now: int): (r: Outcome)
    requires Ready(c)
    ensures r.ok && r.context.phase != GotAll ==> Ready(r.context) && FindCRLF(r.rest) == None
    ensures r.context.phase != ExpectBody && (!r.ok ==> r.context.phase == ExpectRequestLine)
    ensures |r.rest| <= |bytes|
    decreases |bytes|
  {
    var crlf := FindCRLF(bytes);
    if crlf.None? then Outcome(true, c, bytes)
    else
      var step := OnLine(c, bytes[..crlf.value], now);
      if !step.0 then Outcome(false, step.1, bytes)
      else
        var rest := bytes[crlf.value + 2..];
        if step.1.phase == GotAll then Outcome(true, step.1, rest) else Parse(step.1, rest, now)
  }

  /** One round of the loop, as parseRequest runs it. */
  lemma ParseRound(c: Context, bytes: string, now: int, ok: bool, d: Context, rest: string)
    requires Ready(c) && FindCRLF(bytes).Some?
    requires var i := FindCRLF(bytes).value;
             (ok, d) == OnLine(c, bytes[..i], now) && rest == if ok then bytes[i + 2..] else bytes
    ensures if ok && d.phase != GotAll
            then Ready(d) && Parse(d, rest, now) == Parse(c, bytes, now)
            else Outcome(ok, d, rest) == Parse(c, bytes, now)
  {
  }

  // ---- Fragmentation ----

  /** A context up to the time stamp, which tells when bytes came and not what they were. */
  function Timeless(c: Context): Context {
    c.(request := c.request.(receiveTime := 0))
  }

  lemma OnLineIgnoresClock(c: Context, d: Context, line: string, t: int, u: int)
    requires Ready(c) && Ready(d) && Timeless(c) == Timeless(d)
    ensures var p, q := OnLine(c, line, t), OnLine(d, line, u);
            p.0 == q.0 && Timeless(p.1) == Timeless(q.1)
  {
    assert d.request == c.request.(receiveTime := d.request.receiveTime);
  }

  /** The clock has no say in what is parsed. */
  lemma {:induction false} ParseIgnoresClock(c: Context, d: Context, bytes: string, t: int, u: int)
    requires Ready(c) && Ready(d) && Timeless(c) == Timeless(d)
    ensures var p, q := Parse(c, bytes, t), Parse(d, bytes, u);
            p.ok == q.ok && Timeless(p.context) == Timeless(q.context) && p.rest == q.rest
    decreases |bytes|
  {
    var crlf := FindCRLF(bytes);
    if crlf.Some? {
      var line, rest := bytes[..crlf.value], bytes[crlf.value + 2..];
      OnLineIgnoresClock(c, d, line, t, u);
      var p, q := OnLine(c, line, t), OnLine(d, line, u);
      if p.0 && p.1.phase != GotAll {
        ParseIgnoresClock(p.1, q.1, rest, t, u);
      }
    }
  }

  /** Bytes that arrive later are read as if they had been there from the start. */
  lemma {:induction false} ParseConcat(c: Context, a: string, b: string, now: int)
    requires Ready(c)
    ensures var first := Parse(c, a, now);
            Parse(c, a + b, now) ==
            if first.Stopped() then first.(rest := first.rest + b)
            else Parse(first.context, first.rest + b, now)
    decreases |a|
  {
    var crlf := FindCRLF(a);
    if crlf.Some? {
      var i := crlf.value;
      FindCRLFPrefix(a, b);
      assert (a + b)[..i] == a[..i] && (a + b)[i + 2..] == a[i + 2..] + b;
      var step := OnLine(c, a[..i], now);
      if step.0 && step.1.phase != GotAll {
        ParseConcat(step.1, a[i + 2..], b, now);
      }
    }
  }

  /** What a connection's reads leave: the last verdict, the context, the buffer, and the chunks not yet read. */
  datatype Feed = Feed(ok: bool, context: Context, buffered: string, unfed: seq<string>)

  /** Chunks are appended one by one, each followed by a parseRequest at its own time, until it fails or has it all. */
  function FeedChunks(c: Context, buffered: string, chunks: seq<string>, times: seq<int>): Feed
    requires Ready(c) && |times| == |chunks|
    decreases |chunks|
  {
    if chunks == [] then Feed(true, c, buffered, [])
    else
      var r := Parse(c, buffered + chunks[0], times[0]);
      if r.Stopped() then Feed(r.ok, r.context, r.rest, chunks[1..])
      else FeedChunks(r.context, r.rest, chunks[1..], times[1..])
  }

  /** However a byte stream is cut, and whenever its pieces come, it reads as in one piece. */
  lemma {:induction false} FragmentationIndependence(
      c: Context, buffered: string, chunks: seq<string>, times: seq<int>, now: int)
    requires Ready(c) && |times| == |chunks| && (chunks != [] || FindCRLF(buffered) == None)
    ensures var fed := FeedChunks(c, buffered, chunks, times);
            var whole := Parse(c, buffered + Flatten(chunks), now);
            && fed.ok == whole.ok
            && Timeless(fed.context) == Timeless(whole.context)
            && fed.buffered + Flatten(fed.unfed) == whole.rest
    decreases |chunks|
  {
    if chunks == [] {
      assert buffered + Flatten(chunks) == buffered;
    } else {
      var head, tail := buffered + chunks[0], Flatten(chunks[1..]);
      assert buffered + Flatten(chunks) == head + tail;
      var r, s := Parse(c, head, times[0]), Parse(c, head, now);
      ParseIgnoresClock(c, c, head, times[0], now);
      ParseConcat(c, head, tail, now);
      if !r.Stopped() {
        FragmentationIndependence(r.context, r.rest, chunks[1..], times[1..], now);
        ParseIgnoresClock(r.context, s.context, r.rest + tail, now, now);
      }
    }
  }

  // ---- The language the parser accepts ----

  function JoinLine(m: Method, path: string, query: string, v: Version): string {
    MethodString(m) + " " + (path + query + " " + VersionString(v))
  }

  ghost predicate WellFormedLine(m: Method, path: string, query: string, v: Version) {
    && m != Invalid && v != Unknown
    && ' ' !in path && '?' !in path
    && ' ' !in query && (query != "" ==> query[0] == '?')
  }

  lemma VersionNames(token: string, v: Version)
    requires v != Unknown
    ensures VersionOf(token) == v <==> token == VersionString(v)
  {
  }

  /** The two versions by their tokens. */
  lemma VersionTokens()
    ensures VersionOf("HTTP/1.0") == Http10 && VersionOf("HTTP/1.1") == Http11
    ensures VersionOf("HTTP/1.2") == Unknown && VersionOf("HTTP/1.") == Unknown && VersionOf("") == Unknown
  {
    assert "HTTP/1.0"[..7] == VERSION_PREFIX && "HTTP/1.1"[..7] == VERSION_PREFIX;
  }

  lemma MethodIsLossless(name: string, tail: string)
    requires AfterMethod(BLANK, name, tail).ok
    ensures var r := AfterMethod(BLANK, name, tail).request;
            && name == MethodString(r.method_) && tail == r.path + r.query + " " + VersionString(r.version)
            && WellFormedLine(r.method_, r.path, r.query, r.version)
            && r == BLANK.(method_ := r.method_, path := r.path, query := r.query, version := r.version)
  {
  }

  /** Nothing of an accepted request line is lost: putting the four parts together gives the line back. */
  lemma AcceptedLineIsLossless(line: string)
    requires RequestLine(BLANK, line).ok
    ensures var r := RequestLine(BLANK, line).request;
            WellFormedLine(r.method_, r.path, r.query, r.version) &&
            line == JoinLine(r.method_, r.path, r.query, r.version) &&
            r == BLANK.(method_ := r.method_, path := r.path, query := r.query, version := r.version)
  {
    var space := IndexOf(line, ' ');
    var name, tail := line[..space], line[space + 1..];
    assert line == name + " " + tail;
    MethodIsLossless(name, tail);
  }

  lemma TargetAccepted(r: Request, path: string, query: string, v: Version)
    requires r.query == "" && v != Unknown && '?' !in path && (query != "" ==> query[0] == '?')
    ensures AfterTarget(r, path + query, VersionString(v)) ==
            LineResult(true, r.(path := path, query := query, version := v))
  {
    var target := path + query;
    assert target[..|path|] == path && target[|path|..] == query;
    IndexOfUnique(target, '?', |path|);
    VersionNames(VersionString(v), v);
  }

  lemma IndexOfSeparator(a: string, c: char, b: string)
    requires c !in a
    ensures IndexOf(a + [c] + b, c) == |a|
    ensures (a + [c] + b)[..|a|] == a && (a + [c] + b)[|a| + 1..] == b
  {
    var s := a + [c] + b;
    assert s[..|a|] == a;
    IndexOfUnique(s, c, |a|);
  }

  /** Every well-formed tuple, put together, parses to itself. */
  lemma WellFormedLineAccepted(m: Method, path: string, query: string, v: Version)
    requires WellFormedLine(m, path, query, v)
    ensures RequestLine(BLANK, JoinLine(m, path, query, v)) ==
            LineResult(true, BLANK.(method_ := m, path := path, query := query, version := v))
  {
    var target := path + query;
    var tail := target + " " + VersionString(v);
    MethodNames(m, MethodString(m));
    IndexOfSeparator(MethodString(m), ' ', tail);
    IndexOfSeparator(target, ' ', VersionString(v));
    TargetAccepted(BLANK.(method_ := m), path, query, v);
  }

  /** A field line: the text before its first colon and the text after it. */
  datatype Field = Field(name: string, raw: string)

  function FieldLine(f: Field): string {
    f.name + ":" + f.raw
  }

  ghost predicate WellFormedField(f: Field) {
    ':' !in f.name && NoCRLF(FieldLine(f))
  }

  /** Later duplicates win. */
  function HeadersOf(headers: map<string, string>, fields: seq<Field>): map<string, string>
    decreases |fields|
  {
    if fields == [] then headers
    else HeadersOf(headers[fields[0].name := Trim(fields[0].raw)], fields[1..])
  }

  /** Of the fields with a name the last one counts, without its outer white space. */
  lemma {:induction false} LastFieldCounts(h: map<string, string>, fields: seq<Field>, i: nat)
    requires i < |fields| && forall j :: i < j < |fields| ==> fields[j].name != fields[i].name
    ensures var all := HeadersOf(h, fields);
            fields[i].name in all && IsTrimOf(all[fields[i].name], fields[i].raw)
    decreases |fields|
  {
    var later := h[fields[0].name := Trim(fields[0].raw)];
    if i == 0 {
      TrimIsTrim(fields[0].raw);
      OtherFieldsKeep(later, fields[1..], fields[0].name);
    } else {
      LastFieldCounts(later, fields[1..], i - 1);
    }
  }

  lemma {:induction false} OtherFieldsKeep(h: map<string, string>, fields: seq<Field>, name: string)
    requires forall j :: 0 <= j < |fields| ==> fields[j].name != name
    ensures name in HeadersOf(h, fields) <==> name in h
    ensures name in h ==> HeadersOf(h, fields)[name] == h[name]
    decreases |fields|
  {
    if fields != [] {
      OtherFieldsKeep(h[fields[0].name := Trim(fields[0].raw)], fields[1..], name);
    }
  }

  function PrintFields(fields: seq<Field>): string {
    if fields == [] then "" else FieldLine(fields[0]) + CRLF + PrintFields(fields[1..])
  }

  /**
   * A message as the parser sees it: its request line and the parts that line is put together from, its fields,
   * and the line without a colon that ends its headers.
   */
  datatype Message = Message(
    line: string, method_: Method, path: string, query: string, version: Version, fields: seq<Field>, last: string)
  {
    function Print(): string {
      line + CRLF + PrintFields(fields) + last + CRLF
    }

    ghost predicate WellFormed() {
      && WellFormedLine(method_, path, query, version)
      && line == JoinLine(method_, path, query, version) && NoCRLF(line)
      && (forall f :: f in fields ==> WellFormedField(f))
      && ':' !in last && NoCRLF(last)
    }

    function Meaning(now: int): Request {
      Request(method_, version, path, query, now, HeadersOf(map[], fields))
    }
  }

  lemma ParseLine(c: Context, line: string, rest: string, now: int)
    requires Ready(c) && NoCRLF(line)
    ensures var step := OnLine(c, line, now);
            Parse(c, line + CRLF + rest, now) ==
            if !step.0 then Outcome(false, step.1, line + CRLF + rest)
            else if step.1.phase == GotAll then Outcome(true, step.1, rest)
            else Parse(step.1, rest, now)
  {
    FindCRLFLine(line, rest);
    var bytes := line + CRLF + rest;
    assert bytes[..|line|] == line && bytes[|line| + 2..] == rest;
  }

  /**
   * A refusal takes nothing from the buffer; the next parseRequest will meet the same line, and may be entered, if and
   * only if the line did not get as far as a known method.
   */
  lemma RefusalMayBeFinal(line: string, rest: string, now: int)
    requires NoCRLF(line) && !RequestLine(BLANK, line).ok
    ensures var p := Parse(FRESH, line + CRLF + rest, now);
            var blank := IndexOf(line, ' ');
            && !p.ok && p.rest == line + CRLF + rest
            && (Ready(p.context) <==> blank == |line| || MethodOf(line[..blank]) == Invalid)
  {
    ParseLine(FRESH, line, rest, now);
  }

  /** A known method and nothing behind the target: the next parseRequest fails the assertion in setMethod. */
  lemma RefusedGetIsFinal(now: int)
    ensures var p := Parse(FRESH, "GET x" + CRLF, now);
            !p.ok && p.rest == "GET x" + CRLF && p.context.request.method_ == Get && !Ready(p.context)
  {
    var line := "GET x";
    assert NoCRLF(line);
    IndexOfUnique(line, ' ', 3);
    assert line[..3] == "GET" && line[4..] == "x";
    IndexOfUnique("x", ' ', 1);
    assert "GET x" + CRLF == line + CRLF + "";
    ParseLine(FRESH, line, "", now);
  }

  lemma {:induction false} ParsePrintedFields(c: Context, fields: seq<Field>, last: string, rest: string, now: int)
    requires c.phase == ExpectHeaders
    requires forall f :: f in fields ==> WellFormedField(f)
    requires ':' !in last && NoCRLF(last)
    ensures Parse(c, PrintFields(fields) + last + CRLF + rest, now) ==
            Outcome(true, Context(GotAll, c.request.(headers := HeadersOf(c.request.headers, fields))), rest)
    decreases |fields|
  {
    if fields == [] {
      assert PrintFields(fields) + last + CRLF + rest == last + CRLF + rest;
      IndexOfUnique(last, ':', |last|);
      ParseLine(c, last, rest, now);
    } else {
      var f := fields[0];
      var line := FieldLine(f);
      var after := PrintFields(fields[1..]) + last + CRLF + rest;
      assert PrintFields(fields) + last + CRLF + rest == line + CRLF + after;
      assert WellFormedField(f);
      IndexOfSeparator(f.name, ':', f.raw);
      ParseLine(c, line, after, now);
      ParsePrintedFields(OnLine(c, line, now).1, fields[1..], last, rest, now);
    }
  }

  /** A well-formed message in front of anything is read completely, and nothing after it is touched. */
  lemma ParsePrinted(m: Message, rest: string, now: int)
    requires m.WellFormed()
    ensures Parse(FRESH, m.Print() + rest, now) == Outcome(true, Context(GotAll, m.Meaning(now)), rest)
  {
    var after := PrintFields(m.fields) + m.last + CRLF + rest;
    PrintLine(m, rest);
    WellFormedLineAccepted(m.method_, m.path, m.query, m.version);
    ParseLine(FRESH, m.line, after, now);
    ParsePrintedFields(OnLine(FRESH, m.line, now).1, m.fields, m.last, rest, now);
  }

  lemma PrependField(f: Field, more: seq<Field>, last: string, left: string)
    ensures PrintFields([f] + more) + last + CRLF + left ==
            FieldLine(f) + CRLF + (PrintFields(more) + last + CRLF + left)
  {
  }

  lemma FieldOfLine(line: string) returns (f: Field)
    requires NoCRLF(line) && IndexOf(line, ':') < |line|
    ensures WellFormedField(f) && FieldLine(f) == line
  {
    var colon := IndexOf(line, ':');
    f := Field(line[..colon], line[colon + 1..]);
    assert FieldLine(f) == line;
  }

  lemma CutLine(bytes: string) returns (line: string, rest: string)
    requires FindCRLF(bytes).Some?
    ensures NoCRLF(line) && bytes == line + CRLF + rest && |rest| < |bytes|
  {
    LineBeforeCRLF(bytes);
    var i := FindCRLF(bytes).value;
    line, rest := bytes[..i], bytes[i + 2..];
  }

  lemma {:induction false} FieldsOfParsed(c: Context, bytes: string, now: int)
      returns (fields: seq<Field>, last: string)
    requires c.phase == ExpectHeaders && Parse(c, bytes, now).context.phase == GotAll
    ensures forall f :: f in fields ==> WellFormedField(f)
    ensures ':' !in last && NoCRLF(last)
    ensures bytes == PrintFields(fields) + last + CRLF + Parse(c, bytes, now).rest
    decreases |bytes|
  {
    var line, rest := CutLine(bytes);
    ParseLine(c, line, rest, now);
    if IndexOf(line, ':') == |line| {
      assert line[..|line|] == line;
      fields, last := [], line;
      assert PrintFields(fields) + last == last;
    } else {
      var f := FieldOfLine(line);
      var more;
      more, last := FieldsOfParsed(OnLine(c, line, now).1, rest, now);
      fields := [f] + more;
      PrependField(f, more, last, Parse(c, bytes, now).rest);
    }
  }

  /** Whatever the parser accepts is a well-formed message followed by the bytes it left. */
  lemma ParsedWasPrinted(bytes: string, now: int) returns (m: Message)
    requires Parse(FRESH, bytes, now).context.phase == GotAll
    ensures m.WellFormed() && bytes == m.Print() + Parse(FRESH, bytes, now).rest
    ensures Parse(FRESH, bytes, now).context.request == m.Meaning(now)
  {
    var line, rest := CutLine(bytes);
    ParseLine(FRESH, line, rest, now);
    AcceptedLineIsLossless(line);
    var r := RequestLine(BLANK, line).request;
    var fields, last := FieldsOfParsed(OnLine(FRESH, line, now).1, rest, now);
    m := Message(line, r.method_, r.path, r.query, r.version, fields, last);
    PrintLine(m, Parse(FRESH, bytes, now).rest);
    ParsePrinted(m, Parse(FRESH, bytes, now).rest, now);
  }

  lemma PrintLine(m: Message, left: string)
    ensures m.Print() + left == m.line + CRLF + (PrintFields(m.fields) + m.last + CRLF + left)
  {
  }

  /** The parser reaches kGotAll on exactly the streams that begin with a well-formed message. */
  lemma AcceptedLanguage(bytes: string, now: int)
    ensures Parse(FRESH, bytes, now).context.phase == GotAll <==>
            exists m: Message, rest :: m.WellFormed() && bytes == m.Print() + rest
  {
    if Parse(FRESH, bytes, now).context.phase == GotAll {
      var m := ParsedWasPrinted(bytes, now);
      assert bytes == m.Print() + Parse(FRESH, bytes, now).rest;
    }
    forall m: Message, rest | m.WellFormed() && bytes == m.Print() + rest
      ensures Parse(FRESH, bytes, now).context.phase == GotAll
    {
      ParsePrinted(m, rest, now);
    }
  }

  // ---- Pipelining ----

  function PrintAll(ms: seq<Message>): string
    decreases |ms|
  {
    if ms == [] then "" else ms[0].Print() + PrintAll(ms[1..])
  }

  function Meanings(ms: seq<Message>, times: seq<int>): seq<Request>
    requires |times| == |ms|
    decreases |ms|
  {
    if ms == [] then [] else [ms[0].Meaning(times[0])] + Meanings(ms[1..], times[1..])
  }

  datatype Batch = Batch(requests: seq<Request>, rest: string)

  /** Rounds of parseRequest and reset, one for each time given, while a whole request is at hand. */
  function ReadRequests(bytes: string, times: seq<int>): Batch
    decreases |times|
  {
    if times == [] then Batch([], bytes)
    else
      var r := Parse(FRESH, bytes, times[0]);
      if r.context.phase != GotAll then Batch([], bytes)
      else
        var more := ReadRequests(r.rest, times[1..]);
        Batch([r.context.request] + more.requests, more.rest)
  }

  /** Requests laid end to end come back one by one, in order, and leave exactly what follows them. */
  lemma {:induction false} PipelinedRequests(ms: seq<Message>, rest: string, times: seq<int>)
    requires |times| == |ms| && forall m: Message :: m in ms ==> m.WellFormed()
    ensures ReadRequests(PrintAll(ms) + rest, times) ==
            Batch(Meanings(ms, times), rest)
    decreases |ms|
  {
    if ms == [] {
      assert PrintAll(ms) + rest == rest;
    } else {
      var after := PrintAll(ms[1..]) + rest;
      assert PrintAll(ms) + rest == ms[0].Print() + after;
      ParsePrinted(ms[0], after, times[0]);
      PipelinedRequests(ms[1..], rest, times[1..]);
    }
  }

  // ---- The class ----

  class HttpContext {
    var phase: Phase
    const request: HttpRequest

    function View(): Context
      reads this, request
    {
      Context(phase, request.View())
    }

    constructor ()
      ensures View() == FRESH && fresh(request)
    {
      phase := ExpectRequestLine;
      request := new HttpRequest();
    }

    /** Pointer ranges become the strings they span: `start` stands for [start, end). */
    method ProcessRequestLine(line: string) returns (succeed: bool)
      requires request.kind == Invalid
      modifies request
      ensures LineResult(succeed, request.View()) == RequestLine(old(request.View()), line)
    {
      succeed := false;
      var start := line;
      var space := IndexOf(start, ' ');
      if space == |start| {
        return;
      }
      var known := request.SetMethod(start[..space]);
      if known {
        start := start[space + 1..];
        space := IndexOf(start, ' ');
        if space != |start| {
          succeed := SetTargetAndVersion(start[..space], start[space + 1..]);
        }
      }
    }

    method SetTargetAndVersion(target: string, token: string) returns (succeed: bool)
      modifies request
      ensures LineResult(succeed, request.View()) == AfterTarget(old(request.View()), target, token)
    {
      var question := IndexOf(target, '?');
      request.path := target[..question];
      if question != |target| {
        request.query := target[question..];
      }
      succeed := |token| == 8 && token[..7] == VERSION_PREFIX;
      if succeed {
        if token[7] == '1' {
          request.version := Http11;
        } else if token[7] == '0' {
          request.version := Http10;
        } else {
          succeed := false;
        }
      }
    }

    /** What a round of parseRequest's loop does with the line it found, by state. */
    method TakeLine(line: string, now: int) returns (ok: bool)
      requires Ready(View())
      modifies this, request
      ensures (ok, View()) == OnLine(old(View()), line, now)
    {
      ok := true;
      if phase == ExpectRequestLine {
        ok := ProcessRequestLine(line);
        if ok {
          request.receiveTime := now;
          phase := ExpectHeaders;
        }
      } else {
        var colon := IndexOf(line, ':');
        if colon != |line| {
          request.AddHeader(line, colon);
        } else {
          phase := GotAll;
        }
      }
    }

    /** One round of parseRequest's loop. */
    method Round(buf: Buffer, now: int) returns (ok: bool, hasMore: bool)
      requires buf.Valid() && Ready(View())
      modifies this, request, buf
      ensures buf.Valid() && buf.storage == old(buf.storage)
      ensures buf.ReadableBytes() < old(buf.ReadableBytes()) || !hasMore
      ensures if hasMore
              then ok && Ready(View()) && Parse(View(), buf.Contents(), now) == old(Parse(View(), buf.Contents(), now))
              else Outcome(ok, View(), buf.Contents()) == old(Parse(View(), buf.Contents(), now))
    {
      ghost var c, bytes := View(), buf.Contents();
      var crlf := buf.FindFirstCRLF();
      if crlf.None? {
        return true, false;
      }
      ok := TakeLine(buf.Contents()[..crlf.value], now);
      if ok {
        buf.RetrieveBytes(crlf.value + 2);
      }
      ParseRound(c, bytes, now, ok, View(), buf.Contents());
      hasMore := ok && phase != GotAll;
    }

    /** Not to be entered in kExpectBody or kGotAll, where the source's loop never ends. */
    method ParseRequest(buf: Buffer, receiveTime: int) returns (ok: bool)
      requires buf.Valid() && Ready(View())
      modifies this, request, buf
      ensures buf.Valid() && buf.storage == old(buf.storage)
      ensures Outcome(ok, View(), buf.Contents()) == Parse(old(View()), old(buf.Contents()), receiveTime)
    {
      ok := true;
      var hasMore := true;
      while hasMore
        invariant buf.Valid() && buf.storage == old(buf.storage)
        invariant if hasMore
                  then ok && Ready(View()) &&
                       Parse(View(), buf.Contents(), receiveTime) == old(Parse(View(), buf.Contents(), receiveTime))
                  else Outcome(ok, View(), buf.Contents()) == old(Parse(View(), buf.Contents(), receiveTime))
        decreases buf.ReadableBytes(), hasMore
      {
        ok, hasMore := Round(buf, receiveTime);
      }
    }

    predicate GetAll()
      reads this
    {
      phase == GotAll
    }

    method Reset()
      modifies this, request
      ensures View() == FRESH
    {
      phase := ExpectRequestLine;
      var dummy := new HttpRequest();
      request.Swap(dummy);
    }
  }
}
