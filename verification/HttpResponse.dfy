/** The response printer, and how the parser reads what it prints: wf_http_response.h and wf_http_response.cc. */
module HttpResponses {
  import opened Strings
  import opened Buffers
  import opened HttpRequests
  import opened HttpContexts

  const FORMAT_BUFFER: nat := 32
  const TEN_TRILLION: nat := 10_000_000_000_000

  /** Decimal notation, as %d and %zd print it. */
  function Digits(n: nat): (s: string)
    ensures s != [] && forall i :: 0 <= i < |s| ==> '0' <= s[i] <= '9'
  {
    if n < 10 then ['0' + n as char] else Digits(n / 10) + ['0' + (n % 10) as char]
  }

  /** Decimal text read from its end: each digit counts once, what is before it ten times. */
  function Value(text: string): int {
    if text == "" then 0 else 10 * Value(text[..|text| - 1]) + (text[|text| - 1] as int - '0' as int)
  }

  /** The digits of a number read back as that number, and do not begin with a nought. */
  lemma {:induction false} DigitsValue(n: nat)
    ensures Value(Digits(n)) == n && (n > 0 ==> Digits(n)[0] != '0')
    decreases n
  {
    var d := Digits(n);
    if n < 10 {
      assert d[..0] == "" && Value("") == 0;
    } else {
      DigitsValue(n / 10);
      assert d[..|d| - 1] == Digits(n / 10) && d[0] == Digits(n / 10)[0];
    }
  }

  function Pow10(k: nat): nat {
    if k == 0 then 1 else 10 * Pow10(k - 1)
  }

  lemma {:induction false} DigitsLength(n: nat, k: nat)
    requires k > 0
    ensures |Digits(n)| <= k <==> n < Pow10(k)
    decreases n
  {
    assert Pow10(k) == 10 * Pow10(k - 1);
    if n < 10 {
      PowPositive(k - 1);
    } else if k > 1 {
      DigitsLength(n / 10, k - 1);
    }
  }

  lemma PowPositive(k: nat)
    ensures Pow10(k) >= 1
  {
  }

  /** The length line has room for thirteen digits. */
  lemma ThirteenDigits(n: nat)
    ensures |Digits(n)| <= 13 <==> n < TEN_TRILLION
  {
    DigitsLength(n, 13);
    assert Pow10(5) == 100_000;
    assert Pow10(9) == 1_000_000_000;
    assert Pow10(13) == TEN_TRILLION;
  }

  /** snprintf into the 32-byte format buffer keeps 31 characters. */
  function Formatted(s: string): string {
    if |s| < FORMAT_BUFFER then s else s[..FORMAT_BUFFER - 1]
  }

  function LengthLine(size: nat): string {
    Formatted("Content-Length: " + Digits(size) + CRLF)
  }

  datatype Response = Response(
    status: nat, message: string, close: bool, headers: map<string, string>, body: string)
  {
    function StatusLine(): string {
      Formatted("HTTP/1.1 " + Digits(status) + " ") + message + CRLF
    }

    /** The lines every response starts its headers with. */
    function StandingLines(): string {
      if close then "Connection: close" + CRLF
      else LengthLine(|body|) + ("Connection: Keep-Alive" + CRLF)
    }

    function StandingFields(): map<string, string> {
      if close then map["Connection" := "close"]
      else map["Content-Length" := Digits(|body|), "Connection" := "Keep-Alive"]
    }

    /** The printed fields as a map: addHeader's entries win over the standing ones. */
    function Fields(): map<string, string> {
      StandingFields() + headers
    }

    function HeaderBlock(order: seq<string>): string
      requires forall k :: k in order ==> k in headers
    {
      StandingLines() + HeaderLines(order, headers) + CRLF + body
    }

    /** Keys without colon or CRLF; values without CRLF and without white space around them. */
    ghost predicate Printable() {
      forall k :: k in headers ==> ':' !in k && NoCRLF(k) && NoCRLF(headers[k]) && NoOuterSpace(headers[k])
    }

    /** The length line fits its buffer, or nothing hangs on the two lines it would run together. */
    predicate LengthFits() {
      close || |body| < TEN_TRILLION || ("Content-Length" in headers && "Connection" in headers)
    }
  }

  /** One order in which the header map is walked: every key once. std::map's own order is one of them. */
  ghost predicate Walks(order: seq<string>, headers: map<string, string>) {
    && (forall k :: k in order <==> k in headers)
    && forall i, j :: 0 <= i < j < |order| ==> order[i] != order[j]
  }

  function HeaderLines(order: seq<string>, headers: map<string, string>): string
    requires forall k :: k in order ==> k in headers
    decreases |order|
  {
    if order == [] then ""
    else order[0] + ": " + headers[order[0]] + CRLF + HeaderLines(order[1..], headers)
  }

  // ---- Reading a header block back ----

  function MapFields(order: seq<string>, headers: map<string, string>): (fields: seq<Field>)
    requires forall k :: k in order ==> k in headers
    ensures forall f :: f in fields ==> f.name in order && f.raw == " " + headers[f.name]
    decreases |order|
  {
    if order == [] then [] else [Field(order[0], " " + headers[order[0]])] + MapFields(order[1..], headers)
  }

  lemma {:induction false} HeaderLinesAreFields(order: seq<string>, headers: map<string, string>)
    requires forall k :: k in order ==> k in headers
    ensures HeaderLines(order, headers) == PrintFields(MapFields(order, headers))
    decreases |order|
  {
    if order != [] {
      HeaderLinesAreFields(order[1..], headers);
      var k := order[0];
      assert k + ": " + headers[k] == FieldLine(Field(k, " " + headers[k]));
    }
  }

  lemma TrimBlank(v: string)
    requires NoOuterSpace(v)
    ensures Trim(" " + v) == v
  {
    TrimPadding(" ", v, "");
    assert " " + v + "" == " " + v;
  }

  function Listed(order: seq<string>, headers: map<string, string>): map<string, string>
    requires forall k :: k in order ==> k in headers
  {
    map k | k in order :: headers[k]
  }

  lemma ListedStep(start: map<string, string>, order: seq<string>, headers: map<string, string>)
    requires order != [] && forall k :: k in order ==> k in headers
    ensures start[order[0] := headers[order[0]]] + Listed(order[1..], headers) == start + Listed(order, headers)
  {
    assert forall k :: k in order <==> k == order[0] || k in order[1..];
  }

  /** Field lines are stored one over the other; the keys of a map come back as that map. */
  lemma {:induction false} MapFieldsRead(start: map<string, string>, order: seq<string>, headers: map<string, string>)
    requires forall k :: k in order ==> k in headers && NoOuterSpace(headers[k])
    ensures HeadersOf(start, MapFields(order, headers)) == start + Listed(order, headers)
    decreases |order|
  {
    if order == [] {
      assert start + Listed(order, headers) == start;
    } else {
      var k := order[0];
      TrimBlank(headers[k]);
      ListedStep(start, order, headers);
      MapFieldsRead(start[k := headers[k]], order[1..], headers);
    }
  }

  lemma WellFormedMapField(k: string, v: string)
    requires ':' !in k && NoCRLF(k) && NoCRLF(v)
    ensures WellFormedField(Field(k, " " + v))
  {
    var line := FieldLine(Field(k, " " + v));
    assert line == k + ": " + v;
    forall i ensures !CRLFAt(line, i) {
      if 0 <= i < |k| {
        assert line[i + 1] == if i + 1 < |k| then k[i + 1] else ':';
        assert !CRLFAt(k, i);
      } else if |k| + 2 <= i {
        assert !CRLFAt(v, i - |k| - 2);
      }
    }
  }

  lemma NoLineFeed(s: string)
    requires '\n' !in s
    ensures NoCRLF(s)
  {
  }

  /** The standing lines as fields: what the parser will see, run together or not. */
  function StandingAsFields(r: Response): seq<Field> {
    if r.close then [Field("Connection", " close")]
    else
      var d := Digits(|r.body|);
      if |d| <= 13 then [Field("Content-Length", " " + d), Field("Connection", " Keep-Alive")]
      else [Field("Content-Length", " " + ((d + CRLF)[..15] + "Connection: Keep-Alive"))]
  }

  lemma PrintOne(f: Field)
    ensures PrintFields([f]) == FieldLine(f) + CRLF
  {
  }

  lemma PrintTwo(f: Field, g: Field)
    ensures PrintFields([f, g]) == FieldLine(f) + CRLF + (FieldLine(g) + CRLF)
  {
    assert [f, g][1..] == [g];
    PrintOne(g);
  }

  /** Beyond thirteen digits the line loses its line feed, and then more. */
  lemma LengthLineFormatted(d: string)
    ensures var full := "Content-Length: " + d + CRLF;
            Formatted(full) == if |d| <= 13 then full else "Content-Length: " + (d + CRLF)[..15]
  {
  }

  lemma RunTogether(t: string)
    ensures FieldLine(Field("Content-Length", " " + (t + "Connection: Keep-Alive"))) + CRLF ==
            "Content-Length: " + t + ("Connection: Keep-Alive" + CRLF)
  {
  }

  lemma ConnectionLines()
    ensures FieldLine(Field("Connection", " close")) == "Connection: close"
    ensures FieldLine(Field("Connection", " Keep-Alive")) == "Connection: Keep-Alive"
  {
  }

  lemma LengthField(d: string)
    ensures FieldLine(Field("Content-Length", " " + d)) == "Content-Length: " + d
  {
  }

  lemma StandingLinesAreFields(r: Response)
    ensures r.StandingLines() == PrintFields(StandingAsFields(r))
  {
    var d := Digits(|r.body|);
    ConnectionLines();
    if r.close {
      PrintOne(Field("Connection", " close"));
    } else {
      LengthLineFormatted(d);
      if |d| <= 13 {
        LengthField(d);
        PrintTwo(Field("Content-Length", " " + d), Field("Connection", " Keep-Alive"));
      } else {
        PrintOne(StandingAsFields(r)[0]);
        RunTogether((d + CRLF)[..15]);
      }
    }
  }

  lemma PlainField(name: string, raw: string)
    requires ':' !in name && '\n' !in name && '\n' !in raw
    ensures WellFormedField(Field(name, raw))
  {
    NoLineFeed(FieldLine(Field(name, raw)));
  }

  lemma CutLengthLine(d: string)
    requires |d| > 13 && forall i :: 0 <= i < |d| ==> '0' <= d[i] <= '9'
    ensures '\n' !in (d + CRLF)[..15]
  {
  }

  lemma StandingWellFormed(r: Response)
    ensures forall f :: f in StandingAsFields(r) ==> WellFormedField(f)
  {
    var d := Digits(|r.body|);
    if r.close {
      PlainField("Connection", " close");
    } else if |d| <= 13 {
      PlainField("Content-Length", " " + d);
      PlainField("Connection", " Keep-Alive");
    } else {
      CutLengthLine(d);
      PlainField("Content-Length", " " + ((d + CRLF)[..15] + "Connection: Keep-Alive"));
    }
  }

  /** The headers the standing lines leave behind. */
  function StandingRead(r: Response): map<string, string> {
    if !r.close && |Digits(|r.body|)| > 13
    then map["Content-Length" := (Digits(|r.body|) + CRLF)[..15] + "Connection: Keep-Alive"]
    else r.StandingFields()
  }

  lemma StandingFieldsRead(r: Response)
    ensures HeadersOf(map[], StandingAsFields(r)) == StandingRead(r)
  {
    var d := Digits(|r.body|);
    if r.close {
      TrimBlank("close");
      assert " " + "close" == " close";
    } else if |d| <= 13 {
      TrimBlank(d);
      TrimBlank("Keep-Alive");
      assert " " + "Keep-Alive" == " Keep-Alive";
      var f, g := Field("Content-Length", " " + d), Field("Connection", " Keep-Alive");
      assert [f, g][1..] == [g];
      assert HeadersOf(map["Content-Length" := d], [g]) == map["Content-Length" := d, "Connection" := "Keep-Alive"];
    } else {
      var v := (d + CRLF)[..15] + "Connection: Keep-Alive";
      assert v[0] == d[0] && v[|v| - 1] == 'e';
      TrimBlank(v);
    }
  }

  lemma {:induction false} HeadersOfConcat(h: map<string, string>, a: seq<Field>, b: seq<Field>)
    ensures HeadersOf(h, a + b) == HeadersOf(HeadersOf(h, a), b)
    decreases |a|
  {
    if a == [] {
      assert a + b == b;
    } else {
      assert (a + b)[0] == a[0] && (a + b)[1..] == a[1..] + b;
      HeadersOfConcat(h[a[0].name := Trim(a[0].raw)], a[1..], b);
    }
  }

  lemma {:induction false} PrintConcat(a: seq<Field>, b: seq<Field>)
    ensures PrintFields(a + b) == PrintFields(a) + PrintFields(b)
    decreases |a|
  {
    if a == [] {
      assert a + b == b;
    } else {
      assert (a + b)[0] == a[0] && (a + b)[1..] == a[1..] + b;
      PrintConcat(a[1..], b);
    }
  }

  function BlockFields(r: Response, order: seq<string>): seq<Field>
    requires forall k :: k in order ==> k in r.headers
  {
    StandingAsFields(r) + MapFields(order, r.headers)
  }

  lemma BlockIsFields(r: Response, order: seq<string>)
    requires Walks(order, r.headers)
    ensures r.HeaderBlock(order) == PrintFields(BlockFields(r, order)) + "" + CRLF + r.body
  {
    StandingLinesAreFields(r);
    HeaderLinesAreFields(order, r.headers);
    PrintConcat(StandingAsFields(r), MapFields(order, r.headers));
  }

  lemma BlockFieldsWellFormed(r: Response, order: seq<string>)
    requires r.Printable() && Walks(order, r.headers)
    ensures forall f :: f in BlockFields(r, order) ==> WellFormedField(f)
  {
    StandingWellFormed(r);
    forall f | f in MapFields(order, r.headers) ensures WellFormedField(f) {
      WellFormedMapField(f.name, r.headers[f.name]);
    }
  }

  lemma BlockFieldsRead(r: Response, order: seq<string>)
    requires r.Printable() && Walks(order, r.headers)
    ensures HeadersOf(map[], BlockFields(r, order)) == StandingRead(r) + r.headers
  {
    StandingFieldsRead(r);
    HeadersOfConcat(map[], StandingAsFields(r), MapFields(order, r.headers));
    MapFieldsRead(StandingRead(r), order, r.headers);
    assert r.headers == Listed(order, r.headers);
  }

  /** The header block always ends where the body starts, whatever the length line became. */
  lemma HeaderBlockRead(c: Context, r: Response, order: seq<string>, now: int)
    requires c.phase == ExpectHeaders && c.request.headers == map[]
    requires r.Printable() && Walks(order, r.headers)
    ensures Parse(c, r.HeaderBlock(order), now) ==
            Outcome(true, Context(GotAll, c.request.(headers := StandingRead(r) + r.headers)), r.body)
  {
    BlockIsFields(r, order);
    BlockFieldsWellFormed(r, order);
    BlockFieldsRead(r, order);
    ParsePrintedFields(c, BlockFields(r, order), "", r.body, now);
  }

  /** The parser reads back exactly the fields printed, if and only if the length line fits. */
  lemma LengthLineMatters(r: Response)
    ensures StandingRead(r) + r.headers == r.Fields() <==> r.LengthFits()
  {
    var d := Digits(|r.body|);
    ThirteenDigits(|r.body|);
    if !r.close && |d| > 13 {
      var t := (d + CRLF)[..15] + "Connection: Keep-Alive";
      var read, printed := StandingRead(r) + r.headers, r.Fields();
      if "Connection" !in r.headers {
        assert "Connection" in printed && "Connection" !in read;
      } else if "Content-Length" !in r.headers {
        assert t[25] == ':' && read["Content-Length"] == t && printed["Content-Length"] == d;
      } else {
        assert read == printed;
      }
    }
  }

  /**
   * Round trip: behind any request line, a printed header block takes the parser to kGotAll and leaves exactly
   * the body; the fields read are the fields printed if and only if the length line fits its buffer.
   */
  lemma HeaderBlockRoundTrip(
      m: Method, path: string, query: string, v: Version, r: Response, order: seq<string>, now: int)
    requires WellFormedLine(m, path, query, v) && NoCRLF(JoinLine(m, path, query, v))
    requires r.Printable() && Walks(order, r.headers)
    ensures var read := Parse(FRESH, JoinLine(m, path, query, v) + CRLF + r.HeaderBlock(order), now);
            var request := read.context.request;
            && read.ok && read.context.phase == GotAll && read.rest == r.body
            && request.(headers := map[]) == Request(m, v, path, query, now, map[])
            && (request.headers == r.Fields() <==> r.LengthFits())
  {
    var line := JoinLine(m, path, query, v);
    WellFormedLineAccepted(m, path, query, v);
    ParseLine(FRESH, line, r.HeaderBlock(order), now);
    HeaderBlockRead(OnLine(FRESH, line, now).1, r, order, now);
    LengthLineMatters(r);
  }

  /** For any int the status line is the version, the status in decimal, and the message. */
  lemma StatusLineReads(r: Response) returns (status: string)
    requires r.status < 0x8000_0000
    ensures r.StatusLine() == "HTTP/1.1 " + status + " " + r.message + CRLF
    ensures Value(status) == r.status && forall c :: c in status ==> '0' <= c <= '9'
  {
    status := Digits(r.status);
    DigitsValue(r.status);
    DigitsLength(r.status, 10);
    assert Pow10(5) == 100_000 && Pow10(10) == 10_000_000_000;
  }

  /**
   * Behind any request line, the Content-Length the parser reads is the number of bytes it leaves, unless the response
   * closes, the body is too long for the length line, or a header of the response's own takes its place.
   */
  lemma ContentLengthRead(
      m: Method, path: string, query: string, v: Version, r: Response, order: seq<string>, now: int)
    requires WellFormedLine(m, path, query, v) && NoCRLF(JoinLine(m, path, query, v))
    requires r.Printable() && Walks(order, r.headers)
    requires !r.close && |r.body| < TEN_TRILLION && "Content-Length" !in r.headers
    ensures var read := Parse(FRESH, JoinLine(m, path, query, v) + CRLF + r.HeaderBlock(order), now);
            var headers := read.context.request.headers;
            && "Content-Length" in headers && Value(headers["Content-Length"]) == |read.rest|
            && (forall c :: c in headers["Content-Length"] ==> '0' <= c <= '9')
  {
    HeaderBlockRoundTrip(m, path, query, v, r, order, now);
    DigitsValue(|r.body|);
    LengthPrinted(r);
  }

  lemma LengthPrinted(r: Response)
    requires !r.close && "Content-Length" !in r.headers
    ensures "Content-Length" in r.Fields() && r.Fields()["Content-Length"] == Digits(|r.body|)
  {
  }

  /** A ten trillion byte body behind GET / is one whose fields do not come back. */
  lemma LongBodyLosesFields(body: string, now: int)
    requires |body| == TEN_TRILLION
    ensures var r := Response(200, "OK", false, map[], body);
            Parse(FRESH, JoinLine(Get, "/", "", Http11) + CRLF + r.HeaderBlock([]), now).context.request.headers
            != r.Fields()
  {
    NoLineFeed(JoinLine(Get, "/", "", Http11));
    HeaderBlockRoundTrip(Get, "/", "", Http11, Response(200, "OK", false, map[], body), [], now);
  }

  lemma InOnePiece(a: string, b: string, c: string, d: string)
    ensures a + b + (c + d) == a + (b + c + d)
  {
  }

  lemma FiveInOnePiece(a: string, b: string, c: string, d: string, e: string)
    ensures a + b + c + d + e == a + (b + c + d + e)
  {
    Three(a, b, c);
    Three(a, b + c, d);
    Three(a, b + c + d, e);
  }

  lemma Three(a: string, b: string, c: string)
    ensures a + b + c == a + (b + c)
  {
  }

  lemma BlockInOnePiece(done: string, r: Response, order: seq<string>)
    requires forall k :: k in order ==> k in r.headers
    ensures done + r.StandingLines() + HeaderLines(order, r.headers) + CRLF + r.body == done + r.HeaderBlock(order)
  {
    FiveInOnePiece(done, r.StandingLines(), HeaderLines(order, r.headers), CRLF, r.body);
  }

  lemma {:induction false} HeaderLinesOneMore(order: seq<string>, headers: map<string, string>, i: nat)
    requires i < |order| && forall k :: k in order ==> k in headers
    ensures HeaderLines(order[..i + 1], headers) ==
            HeaderLines(order[..i], headers) + (order[i] + ": " + headers[order[i]] + CRLF)
    decreases i
  {
    if i == 0 {
      assert order[..1] == [order[0]] && order[..0] == [] && [order[0]][1..] == [];
      assert HeaderLines([order[0]], headers) == order[0] + ": " + headers[order[0]] + CRLF + HeaderLines([], headers);
    } else {
      assert order[..i + 1][1..] == order[1..][..i] && order[..i][1..] == order[1..][..i - 1];
      HeaderLinesOneMore(order[1..], headers, i - 1);
    }
  }

  class HttpResponse {
    var statusCode: nat
    var statusMessage: string
    var closeConnection: bool
    var headers: map<string, string>
    var body: string

    function View(): Response
      reads this
    {
      Response(statusCode, statusMessage, closeConnection, headers, body)
    }

    constructor (close: bool)
      ensures View() == Response(0, "", close, map[], "")
    {
      statusCode, statusMessage, closeConnection, headers, body := 0, "", close, map[], "";
    }

    method AddHeader(key: string, value: string)
      modifies this
      ensures View() == old(View()).(headers := old(headers)[key := value])
    {
      headers := headers[key := value];
    }

    /** The order of the header map is a parameter. */
    method AppendToBuffer(output: Buffer, order: seq<string>)
      requires output.Valid() && Walks(order, headers)
      modifies output, output.storage
      ensures output.Valid() && (output.storage == old(output.storage) || fresh(output.storage))
      ensures output.Contents() == old(output.Contents() + View().StatusLine() + View().HeaderBlock(order))
    {
      ghost var r, start := View(), output.Contents();
      AppendStatusLine(output);
      AppendStanding(output);
      AppendHeaders(output, order);
      output.AppendString(CRLF);
      output.AppendString(body);
      BlockInOnePiece(start + r.StatusLine(), r, order);
    }

    method AppendStatusLine(output: Buffer)
      requires output.Valid()
      modifies output, output.storage
      ensures output.Valid() && (output.storage == old(output.storage) || fresh(output.storage))
      ensures output.Contents() == old(output.Contents() + View().StatusLine())
    {
      var start := Formatted("HTTP/1.1 " + Digits(statusCode) + " ");
      AppendThree(output, start, statusMessage, CRLF);
      assert View().StatusLine() == start + statusMessage + CRLF;
    }

    method AppendStanding(output: Buffer)
      requires output.Valid()
      modifies output, output.storage
      ensures output.Valid() && (output.storage == old(output.storage) || fresh(output.storage))
      ensures output.Contents() == old(output.Contents() + View().StandingLines())
    {
      ghost var lines := View().StandingLines();
      if closeConnection {
        var line := "Connection: close" + CRLF;
        assert lines == line;
        output.AppendString(line);
      } else {
        var length, keepAlive := LengthLine(|body|), "Connection: Keep-Alive" + CRLF;
        assert lines == length + keepAlive;
        AppendTwo(output, length, keepAlive);
      }
    }

    method AppendThree(output: Buffer, first: string, second: string, third: string)
      requires output.Valid()
      modifies output, output.storage
      ensures output.Valid() && (output.storage == old(output.storage) || fresh(output.storage))
      ensures output.Contents() == old(output.Contents()) + (first + second + third)
    {
      ghost var start := output.Contents();
      AppendTwo(output, first, second);
      output.AppendString(third);
      Three(start, first + second, third);
    }

    method AppendTwo(output: Buffer, first: string, second: string)
      requires output.Valid()
      modifies output, output.storage
      ensures output.Valid() && (output.storage == old(output.storage) || fresh(output.storage))
      ensures output.Contents() == old(output.Contents()) + (first + second)
    {
      ghost var start := output.Contents();
      output.AppendString(first);
      output.AppendString(second);
      Three(start, first, second);
    }

    method AppendHeaders(output: Buffer, order: seq<string>)
      requires output.Valid() && Walks(order, headers)
      modifies output, output.storage
      ensures output.Valid() && (output.storage == old(output.storage) || fresh(output.storage))
      ensures output.Contents() == old(output.Contents() + HeaderLines(order, headers))
    {
      ghost var start, map_ := output.Contents(), headers;
      for i := 0 to |order|
        invariant output.Valid() && (output.storage == old(output.storage) || fresh(output.storage))
        invariant headers == map_
        invariant output.Contents() == start + HeaderLines(order[..i], map_)
      {
        HeaderLinesOneMore(order, headers, i);
        ghost var done, line := HeaderLines(order[..i], map_), order[i] + ": " + headers[order[i]] + CRLF;
        assert start + done + line == start + (done + line);
        AppendField(output, order[i]);
      }
      assert order[..|order|] == order;
    }

    method AppendField(output: Buffer, key: string)
      requires output.Valid() && key in headers
      modifies output, output.storage
      ensures output.Valid() && (output.storage == old(output.storage) || fresh(output.storage))
      ensures output.Contents() == old(output.Contents() + (key + ": " + headers[key] + CRLF))
    {
      var value := headers[key];
      AppendTwo(output, key, ": ");
      AppendTwo(output, value, CRLF);
      InOnePiece(old(output.Contents()), key + ": ", value, CRLF);
    }
  }
}
