/** What the two WSGI applications of the speed-test server have in common:
    the part of the WSGI environ they read, the response they hand to
    `start_response` together with the body they return, the request body
    they drain, the download size they pick and the CORS headers they answer
    an OPTIONS request with. */
module Wsgi {
  import opened Common
  import opened Decimal
  import opened Chunking

  /** A response header: name and value. */
  datatype Header = Header(name: string, value: string)

  /** A response body: a text (all texts the servers send are ASCII, so their
      UTF-8 length is their length in characters), a stream of `length`
      payload bytes handed out in pieces of at most `pieceSize` (the bytes
      themselves are random and do not matter), or nothing. */
  datatype Body = Text(text: string) | Stream(length: int, pieceSize: nat) | NoBody

  datatype Response = Response(status: string, headers: seq<Header>, body: Body)

  /** The environ keys the applications read. `query` is `QUERY_STRING` as
      `parse_qs` splits it, `None` when the key is absent; the optional keys
      are `None` when absent. */
  datatype Environ = Environ(
    requestMethod: string,
    pathInfo: string,
    query: Option<map<string, seq<string>>>,
    contentLength: Option<string>,
    origin: Option<string>,
    requestHeaders: Option<string>)

  const StatusOk := "200 OK"
  const StatusBadRequest := "400 Bad Request"
  const StatusNotFound := "404 Not Found"
  const StatusNotAllowed := "405 Method Not Allowed"
  const TextContentType := "text/plain; charset=UTF-8"

  /** The size of a download when none usable is asked for: 10 GiB. */
  const DefaultDownloadLength: int := 10737418240

  /** The first value of a response header, if it is there. */
  function Lookup(headers: seq<Header>, name: string): (r: Option<string>)
    ensures r.Some? ==> exists i :: 0 <= i < |headers| && headers[i] == Header(name, r.value)
    ensures r.None? ==> forall i :: 0 <= i < |headers| ==> headers[i].name != name
  {
    if headers == [] then None
    else if headers[0].name == name then Some(headers[0].value)
    else Lookup(headers[1..], name)
  }

  /** The query parameters the application keeps: none when there is no query string. */
  function QueryParams(env: Environ): map<string, seq<string>>
  {
    if env.query.Some? then env.query.value else map[]
  }

  /** The number in the first `size` parameter, or 0 when it is missing or
      is no integer (the conversion error is swallowed). */
  function RequestedSize(params: map<string, seq<string>>): int
  {
    if "size" in params && |params["size"]| > 0 then
      match ParseInt(params["size"][0])
      case Some(n) => n
      case None => 0
    else 0
  }

  /** The length of the download: the requested size when it is positive,
      otherwise the 10 GiB default. */
  function DownloadLength(params: map<string, seq<string>>): (n: int)
    ensures n > 0
    ensures n == RequestedSize(params) || n == DefaultDownloadLength
    ensures RequestedSize(params) > 0 <==> n == RequestedSize(params)
  {
    if RequestedSize(params) <= 0 then DefaultDownloadLength else RequestedSize(params)
  }

  /** A positive size given in decimal is served exactly; a missing, unreadable
      or non-positive one gets the default. */
  lemma DownloadLengthOfText(n: int)
    ensures DownloadLength(map["size" := [IntToString(n)]]) == if n > 0 then n else DefaultDownloadLength
  {
    IntRoundTrip(n);
  }

  /** `int(environ["CONTENT_LENGTH"])`, or nothing when the key is missing
      or its value is no integer. */
  function ContentLength(env: Environ): Option<int>
  {
    if env.contentLength.Some? then ParseInt(env.contentLength.value) else None
  }

  /** The headers of a download of `n` bytes. */
  function DownloadHeaders(n: int): seq<Header>
    requires n > 0
  {
    [Header("Content-Type", "application/octet-stream"), Header("Content-Length", NatToString(n))]
  }

  /** The download: a binary stream of the chosen length, handed out in
      pieces of at most `pieceSize` bytes. */
  function DownloadResponse(params: map<string, seq<string>>, pieceSize: nat): Response
  {
    Response(StatusOk, DownloadHeaders(DownloadLength(params)), Stream(DownloadLength(params), pieceSize))
  }

  /** The download announces the length it streams, a positive one, handed
      out in pieces of at most `pieceSize` that add up to it. */
  lemma DownloadResponseSays(params: map<string, seq<string>>, pieceSize: nat)
    requires pieceSize > 0
    ensures var r := DownloadResponse(params, pieceSize);
      var n := DownloadLength(params);
      r.status == StatusOk && r.body == Stream(n, pieceSize) && n > 0
      && Lookup(r.headers, "Content-Length") == Some(NatToString(n))
      && ParseNat(NatToString(n)) == Some(n)
      && Sum(Chunks(n, pieceSize)) == n
      && (forall i :: 0 <= i < |Chunks(n, pieceSize)| ==> 1 <= Chunks(n, pieceSize)[i] <= pieceSize)
  {
    var n := DownloadLength(params);
    NatRoundTrip(n);
    ChunksSum(n, pieceSize);
    ChunksBounds(n, pieceSize);
  }

  /** The reply to a request with a text message: the message and a newline,
      announced as plain text of its exact length. */
  function SimpleResponse(message: string, status: string): Response
  {
    var body := message + "\n";
    Response(status, [Header("Content-Type", TextContentType), Header("Content-Length", NatToString(|body|))], Text(body))
  }

  /** The Content-Length of a simple response reads back as the length of its body. */
  lemma SimpleResponseLength(message: string, status: string)
    ensures var r := SimpleResponse(message, status);
      r.status == status && r.body == Text(message + "\n")
      && Lookup(r.headers, "Content-Length").Some?
      && ParseNat(Lookup(r.headers, "Content-Length").value) == Some(|r.body.text|)
  {
    NatRoundTrip(|message| + 1);
  }

  // ---------------------------------------------------------------------------
  // OPTIONS
  // ---------------------------------------------------------------------------

  const BaseOptionsHeaders: seq<Header> := [
    Header("Content-Type", TextContentType),
    Header("Content-Length", "0"),
    Header("Access-Control-Allow-Methods", "OPTIONS, GET, POST")]

  /** The origin echoed back, with `Vary: Origin`, when the request names one. */
  function OriginHeaders(env: Environ): seq<Header>
  {
    if env.origin.Some? then [Header("Access-Control-Allow-Origin", env.origin.value), Header("Vary", "Origin")] else []
  }

  /** The requested headers allowed, when the request lists some. */
  function AllowHeaders(env: Environ): seq<Header>
  {
    if env.requestHeaders.Some? then [Header("Access-Control-Allow-Headers", env.requestHeaders.value)] else []
  }

  /** The headers of the answer to OPTIONS: the three fixed ones, then the
      origin part, then the allowed-headers part. */
  function OptionsHeaders(env: Environ): seq<Header>
  {
    BaseOptionsHeaders + (OriginHeaders(env) + AllowHeaders(env))
  }

  /** `method_OPTIONS`'s header list, built by appending. */
  method BuildOptionsHeaders(env: Environ) returns (headers: seq<Header>)
    ensures headers == OptionsHeaders(env)
  {
    headers := BaseOptionsHeaders;
    if env.origin.Some? {
      headers := headers + [Header("Access-Control-Allow-Origin", env.origin.value)];
      headers := headers + [Header("Vary", "Origin")];
    }
    if env.requestHeaders.Some? {
      headers := headers + [Header("Access-Control-Allow-Headers", env.requestHeaders.value)];
    }
  }

  /** The OPTIONS answer always starts with the three fixed headers, allowing
      the three methods for an empty body; it echoes the origin (and varies on
      it) exactly when one was sent, and allows the requested headers exactly
      when some were asked for. */
  lemma OptionsHeadersSay(env: Environ)
    ensures var h := OptionsHeaders(env);
      h[..3] == BaseOptionsHeaders
      && Lookup(h, "Content-Length") == Some("0")
      && Lookup(h, "Access-Control-Allow-Methods") == Some("OPTIONS, GET, POST")
      && Lookup(h, "Access-Control-Allow-Origin") == env.origin
      && (Lookup(h, "Vary").Some? <==> env.origin.Some?)
      && Lookup(h, "Access-Control-Allow-Headers") == env.requestHeaders
  {
    var rest := OriginHeaders(env) + AllowHeaders(env);
    BaseHeadersSay();
    LookupBefore(BaseOptionsHeaders, rest, "Content-Length");
    LookupBefore(BaseOptionsHeaders, rest, "Access-Control-Allow-Methods");
    LookupAfter(BaseOptionsHeaders, rest, "Access-Control-Allow-Origin");
    LookupAfter(BaseOptionsHeaders, rest, "Vary");
    LookupAfter(BaseOptionsHeaders, rest, "Access-Control-Allow-Headers");
    OriginHeadersSay(env);
    AllowHeadersSay(env);
    LookupAfter(OriginHeaders(env), AllowHeaders(env), "Access-Control-Allow-Headers");
    if env.origin.Some? {
      LookupBefore(OriginHeaders(env), AllowHeaders(env), "Access-Control-Allow-Origin");
      LookupBefore(OriginHeaders(env), AllowHeaders(env), "Vary");
    } else {
      LookupAfter(OriginHeaders(env), AllowHeaders(env), "Access-Control-Allow-Origin");
      LookupAfter(OriginHeaders(env), AllowHeaders(env), "Vary");
    }
  }

  lemma BaseHeadersSay()
    ensures Lookup(BaseOptionsHeaders, "Content-Length") == Some("0")
    ensures Lookup(BaseOptionsHeaders, "Access-Control-Allow-Methods") == Some("OPTIONS, GET, POST")
    ensures forall i :: 0 <= i < |BaseOptionsHeaders| ==> BaseOptionsHeaders[i].name !in {"Access-Control-Allow-Origin", "Vary", "Access-Control-Allow-Headers"}
  {
    assert BaseOptionsHeaders[1..][1..][0].name == "Access-Control-Allow-Methods";
  }

  lemma OriginHeadersSay(env: Environ)
    ensures Lookup(OriginHeaders(env), "Access-Control-Allow-Origin") == env.origin
    ensures Lookup(OriginHeaders(env), "Vary").Some? <==> env.origin.Some?
    ensures forall i :: 0 <= i < |OriginHeaders(env)| ==> OriginHeaders(env)[i].name != "Access-Control-Allow-Headers"
  {
    if env.origin.Some? {
      assert OriginHeaders(env)[1..][0].name == "Vary";
    }
  }

  lemma AllowHeadersSay(env: Environ)
    ensures Lookup(AllowHeaders(env), "Access-Control-Allow-Headers") == env.requestHeaders
    ensures Lookup(AllowHeaders(env), "Access-Control-Allow-Origin") == None
    ensures Lookup(AllowHeaders(env), "Vary") == None
  {
    if env.requestHeaders.Some? {
      assert AllowHeaders(env)[1..] == [];
    }
  }

  /** A name missing from the front part is looked up in the back part. */
  lemma {:induction false} LookupAfter(front: seq<Header>, back: seq<Header>, name: string)
    requires forall i :: 0 <= i < |front| ==> front[i].name != name
    ensures Lookup(front + back, name) == Lookup(back, name)
  {
    if front == [] {
      assert front + back == back;
    } else {
      assert (front + back)[0] == front[0];
      assert (front + back)[1..] == front[1..] + back;
      LookupAfter(front[1..], back, name);
    }
  }

  /** A name found in the front part is found there whatever follows. */
  lemma {:induction false} LookupBefore(front: seq<Header>, back: seq<Header>, name: string)
    requires Lookup(front, name).Some?
    ensures Lookup(front + back, name) == Lookup(front, name)
  {
    assert (front + back)[0] == front[0];
    if front[0].name != name {
      assert (front + back)[1..] == front[1..] + back;
      LookupBefore(front[1..], back, name);
    }
  }

  // ---------------------------------------------------------------------------
  // The request body
  // ---------------------------------------------------------------------------

  /** `environ["wsgi.input"]`: what matters here is the sizes the
      application asks it for, in order. */
  class InputStream {
    var requested: seq<nat>

    constructor ()
      ensures requested == []
    {
      requested := [];
    }

    /** `read(n)`: the bytes read are not looked at, so only the request is kept. */
    method Read(n: nat)
      modifies this
      ensures requested == old(requested) + [n]
    {
      requested := requested + [n];
    }
  }

  /** The upload drain: while bytes are left, read `min(left, cap)` of them.
      The reads are exactly the chunking of the announced length, so they add
      up to it and the loop ends. */
  method Drain(input: InputStream, contentLength: int, cap: nat)
    requires cap > 0
    modifies input
    ensures input.requested == old(input.requested) + Chunks(contentLength, cap)
  {
    var left := contentLength;
    while left > 0
      invariant input.requested + Chunks(left, cap) == old(input.requested) + Chunks(contentLength, cap)
      decreases left
    {
      var toRead := if left < cap then left else cap;
      assert Chunks(left, cap) == [toRead] + Chunks(left - toRead, cap);
      left := left - toRead;
      input.Read(toRead);
    }
  }
}
