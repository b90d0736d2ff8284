/** A parsed request and its setters: wf_http_request.h. */
module HttpRequests {
  import opened Strings

  datatype Method = Invalid | Get | Post | Head | Put | Delete
  datatype Version = Unknown | Http10 | Http11

  /** The fields of an HttpRequest as one value. */
  datatype Request = Request(
    method_: Method, version: Version, path: string, query: string,
    receiveTime: int, headers: map<string, string>)

  const BLANK: Request := Request(Invalid, Unknown, "", "", 0, map[])

  function MethodOf(token: string): Method {
    if token == "GET" then Get
    else if token == "POST" then Post
    else if token == "HEAD" then Head
    else if token == "PUT" then Put
    else if token == "DELETE" then Delete
    else Invalid
  }

  function MethodString(m: Method): string {
    match m
    case Get => "GET"
    case Post => "POST"
    case Head => "HEAD"
    case Put => "PUT"
    case Delete => "DELETE"
    case Invalid => "UNKNOWN"
  }

  /** setMethod takes exactly a method's name for it; names hold no blank. */
  lemma MethodNames(m: Method, token: string)
    requires m != Invalid
    ensures MethodOf(token) == m <==> token == MethodString(m)
    ensures ' ' !in MethodString(m)
  {
  }

  /** The methods by their tokens, in capitals and in full. */
  lemma MethodTokens()
    ensures MethodOf("GET") == Get && MethodOf("POST") == Post && MethodOf("HEAD") == Head
    ensures MethodOf("PUT") == Put && MethodOf("DELETE") == Delete
    ensures MethodOf("get") == Invalid && MethodOf("GETS") == Invalid && MethodOf("") == Invalid
  {
  }

  /** The header map after one field line that has its colon at the given position. */
  function WithHeader(r: Request, line: string, colon: nat): Request
    requires colon < |line|
  {
    r.(headers := r.headers[line[..colon] := Trim(line[colon + 1..])])
  }

  /** The value stored is what follows the colon without its outer white space; no other field changes. */
  lemma HeaderIsTrimmed(r: Request, line: string, colon: nat, other: string)
    requires colon < |line|
    ensures var name, h := line[..colon], WithHeader(r, line, colon).headers;
            && name in h && IsTrimOf(h[name], line[colon + 1..])
            && (other != name ==> (other in h <==> other in r.headers))
            && (other != name && other in h ==> h[other] == r.headers[other])
  {
    TrimIsTrim(line[colon + 1..]);
  }

  /** getHeader: the empty string for a field that is not there. */
  function Header(r: Request, field: string): string {
    if field in r.headers then r.headers[field] else ""
  }

  class HttpRequest {
    var kind: Method
    var version: Version
    var path: string
    var query: string
    var receiveTime: int
    var headers: map<string, string>

    function View(): Request
      reads this
    {
      Request(kind, version, path, query, receiveTime, headers)
    }

    constructor ()
      ensures View() == BLANK
    {
      kind, version, path, query, receiveTime, headers := Invalid, Unknown, "", "", 0, map[];
    }

    /** The source asserts that no method was set before. */
    method SetMethod(token: string) returns (ok: bool)
      requires kind == Invalid
      modifies this
      ensures View() == old(View()).(method_ := MethodOf(token))
      ensures ok <==> MethodOf(token) != Invalid
    {
      if token == "GET" {
        kind := Get;
      } else if token == "POST" {
        kind := Post;
      } else if token == "HEAD" {
        kind := Head;
      } else if token == "PUT" {
        kind := Put;
      } else if token == "DELETE" {
        kind := Delete;
      } else {
        kind := Invalid;
      }
      ok := kind != Invalid;
    }

    method AddHeader(line: string, colon: nat)
      requires colon < |line|
      modifies this
      ensures View() == WithHeader(old(View()), line, colon)
    {
      var field := line[..colon];
      var from := colon + 1;
      while from < |line| && IsSpace(line[from])
        invariant colon < from <= |line|
        invariant TrimLeft(line[from..]) == TrimLeft(line[colon + 1..])
      {
        assert line[from..][1..] == line[from + 1..];
        from := from + 1;
      }
      var value := line[from..];
      while value != [] && IsSpace(value[|value| - 1])
        invariant TrimRight(value) == TrimRight(line[from..])
      {
        value := value[..|value| - 1];
      }
      headers := headers[field := value];
    }

    /** Exchange every field with another request, as reset() does with a fresh one. */
    method Swap(that: HttpRequest)
      modifies this, that
      ensures View() == old(that.View()) && that.View() == old(View())
    {
      kind, that.kind := that.kind, kind;
      version, that.version := that.version, version;
      path, that.path := that.path, path;
      query, that.query := that.query, query;
      receiveTime, that.receiveTime := that.receiveTime, receiveTime;
      headers, that.headers := that.headers, headers;
    }
  }
}
