/** The older WSGI application of lib/qospeedtest/server/__init__.py. It
    matches paths exactly (with their one leading slash), answers hello with
    a bare "hello", streams downloads from a generator object of 1 KiB
    pieces, and does not check the Content-Length of a POST before using it:
    an upload without a readable one raises instead of answering. */
module ServerPackage {
  import opened Common
  import opened Decimal
  import opened Chunking
  import opened Wsgi

  /** Downloads are produced and uploads read in pieces of at most 1 KiB. */
  const PieceSize: nat := 1024

  /** The download payload: an iterator over `byteCount` random bytes. Only
      the piece lengths are modelled; the bytes are fresh randomness. */
  class RandomGenerator {
    const byteCount: int
    var left: int

    constructor (byteCount: int)
      ensures this.byteCount == byteCount && left == byteCount
    {
      this.byteCount := byteCount;
      left := byteCount;
    }

    /** The next piece, `min(left, 1024)` bytes long, or the end of the
        iteration, at which point `left` starts over from `byteCount`. */
    method Next() returns (piece: Option<nat>)
      modifies this
      ensures old(left) <= 0 ==> piece == None && left == byteCount
      ensures old(left) > 0 ==> piece.Some? && 1 <= piece.value <= PieceSize && left == old(left) - piece.value >= 0
      ensures old(left) > 0 ==> [piece.value] + Chunks(left, PieceSize) == Chunks(old(left), PieceSize)
    {
      if left <= 0 {
        left := byteCount;
        return None;
      }
      var toReturn := if left < PieceSize then left else PieceSize;
      left := left - toReturn;
      piece := Some(toReturn);
    }

    /** Iterating to the end: the pieces are the chunking of what was left,
        and the generator is ready to produce them all over again. */
    method Collect() returns (pieces: seq<nat>)
      modifies this
      ensures pieces == Chunks(old(left), PieceSize) && left == byteCount
    {
      pieces := [];
      var p := Next();
      while p.Some?
        invariant p.Some? ==> left >= 0 && pieces + [p.value] + Chunks(left, PieceSize) == Chunks(old(left), PieceSize)
        invariant p.None? ==> pieces == Chunks(old(left), PieceSize) && left == byteCount
        decreases if p.Some? then left + 1 else 0
      {
        pieces := pieces + [p.value];
        p := Next();
      }
    }

    /** A fresh generator, iterated twice, yields the same pieces both times,
        and they add up to its byte count (none for a count of zero or less). */
    method IterateTwice() returns (first: seq<nat>, second: seq<nat>)
      requires left == byteCount
      modifies this
      ensures first == second == Chunks(byteCount, PieceSize)
      ensures Sum(first) == if byteCount > 0 then byteCount else 0
      ensures left == byteCount
    {
      first := Collect();
      second := Collect();
      ChunksSum(byteCount, PieceSize);
    }
  }

  /** The refusal of a method without a handler: plain text without a charset. */
  function NotAllowedResponse(): Response
  {
    var body := "Method Not Allowed\n";
    Response(StatusNotAllowed, [Header("Content-Type", "text/plain"), Header("Content-Length", NatToString(|body|))], Text(body))
  }

  /** Whether the request is a download, served by a fresh generator. */
  predicate IsDownload(env: Environ)
  {
    env.requestMethod == "GET" && env.pathInfo == "/download"
  }

  /** The answer to a request, or `None` when the application raises: an
      upload whose Content-Length is missing or no integer. */
  function Respond(env: Environ): Option<Response>
  {
    if env.requestMethod == "GET" then
      if env.pathInfo == "/hello" then Some(SimpleResponse("hello", StatusOk))
      else if env.pathInfo == "/download" then Some(DownloadResponse(QueryParams(env), PieceSize))
      else Some(SimpleResponse("Not Found", StatusNotFound))
    else if env.requestMethod == "POST" then
      if env.pathInfo == "/upload" then
        if ContentLength(env).None? then None
        else Some(SimpleResponse("size=" + IntToString(ContentLength(env).value), StatusOk))
      else Some(SimpleResponse("Not Found", StatusNotFound))
    else if env.requestMethod == "OPTIONS" then Some(Response(StatusOk, OptionsHeaders(env), NoBody))
    else Some(NotAllowedResponse())
  }

  /** The reads made from the request body: the 1 KiB chunks of the announced
      length for an upload that gets that far, none otherwise. */
  function UploadReads(env: Environ): seq<nat>
  {
    if env.requestMethod == "POST" && env.pathInfo == "/upload" && ContentLength(env).Some?
    then Chunks(ContentLength(env).value, PieceSize)
    else []
  }

  class ServerApplication {
    var environ: Environ
    var queryParams: map<string, seq<string>>

    /** Before the first call no request is stored. */
    constructor ()
      ensures queryParams == map[]
    {
      environ := Environ("", "", None, None, None, None);
      queryParams := map[];
    }

    /** `__call__`: remember the request and hand it to the handler for its
        method. A download also returns the generator that streams it. */
    method Call(env: Environ, input: InputStream) returns (resp: Option<Response>, payload: RandomGenerator?)
      modifies this, input
      ensures environ == env && queryParams == QueryParams(env)
      ensures resp == Respond(env)
      ensures input.requested == old(input.requested) + UploadReads(env)
      ensures payload != null <==> IsDownload(env)
      ensures payload != null ==> fresh(payload) && payload.byteCount == payload.left == DownloadLength(QueryParams(env))
    {
      environ := env;
      queryParams := QueryParams(env);
      payload := null;
      if env.requestMethod == "GET" {
        resp, payload := MethodGet();
      } else if env.requestMethod == "POST" {
        resp := MethodPost(input);
      } else if env.requestMethod == "OPTIONS" {
        var headers := BuildOptionsHeaders(env);
        resp := Some(Response(StatusOk, headers, NoBody));
      } else {
        resp := Some(NotAllowedResponse());
      }
    }

    method MethodGet() returns (resp: Option<Response>, payload: RandomGenerator?)
      requires environ.requestMethod == "GET" && queryParams == QueryParams(environ)
      ensures resp == Respond(environ)
      ensures payload != null <==> IsDownload(environ)
      ensures payload != null ==> fresh(payload) && payload.byteCount == payload.left == DownloadLength(QueryParams(environ))
    {
      payload := null;
      if environ.pathInfo == "/hello" {
        resp := Some(SimpleResponse("hello", StatusOk));
      } else if environ.pathInfo == "/download" {
        var r;
        r, payload := ProcessDownload();
        resp := Some(r);
      } else {
        resp := Some(SimpleResponse("Not Found", StatusNotFound));
      }
    }

    /** The size comes from the stored query parameters; the body is a new
        generator of that many bytes. */
    method ProcessDownload() returns (resp: Response, payload: RandomGenerator)
      ensures resp == DownloadResponse(queryParams, PieceSize)
      ensures fresh(payload) && payload.byteCount == payload.left == DownloadLength(queryParams)
    {
      var outputLen := RequestedSize(queryParams);
      if outputLen <= 0 {
        outputLen := DefaultDownloadLength;
      }
      resp := Response(StatusOk, DownloadHeaders(outputLen), Stream(outputLen, PieceSize));
      payload := new RandomGenerator(outputLen);
    }

    method MethodPost(input: InputStream) returns (resp: Option<Response>)
      requires environ.requestMethod == "POST"
      modifies input
      ensures resp == Respond(environ)
      ensures input.requested == old(input.requested) + UploadReads(environ)
    {
      if environ.pathInfo == "/upload" {
        resp := ProcessUpload(input);
      } else {
        resp := Some(SimpleResponse("Not Found", StatusNotFound));
      }
    }

    /** Reads the announced body in 1 KiB chunks and confirms its length; a
        missing or unreadable Content-Length raises before anything is read. */
    method ProcessUpload(input: InputStream) returns (resp: Option<Response>)
      modifies input
      ensures ContentLength(environ).None? ==> resp == None && input.requested == old(input.requested)
      ensures ContentLength(environ).Some? ==>
        resp == Some(SimpleResponse("size=" + IntToString(ContentLength(environ).value), StatusOk))
        && input.requested == old(input.requested) + Chunks(ContentLength(environ).value, PieceSize)
    {
      var contentLength := ContentLength(environ);
      if contentLength.None? {
        return None;
      }
      Drain(input, contentLength.value, PieceSize);
      resp := Some(SimpleResponse("size=" + IntToString(contentLength.value), StatusOk));
    }
  }

  // ---------------------------------------------------------------------------
  // What every answer satisfies
  // ---------------------------------------------------------------------------

  /** The application raises exactly on an upload without a readable
      Content-Length; otherwise the status is 405 exactly for a method
      without a handler, 404 exactly for a GET or POST to another path, and
      200 for the rest. */
  lemma RespondStatus(env: Environ)
    ensures var m := env.requestMethod;
      (Respond(env).None? <==> m == "POST" && env.pathInfo == "/upload" && ContentLength(env).None?)
      && (Respond(env).Some? ==>
        (Respond(env).value.status == StatusNotAllowed <==> m != "GET" && m != "POST" && m != "OPTIONS")
        && (Respond(env).value.status == StatusNotFound <==>
              (m == "GET" && env.pathInfo != "/hello" && env.pathInfo != "/download")
              || (m == "POST" && env.pathInfo != "/upload"))
        && (Respond(env).value.status == StatusOk <==>
              (m == "GET" && (env.pathInfo == "/hello" || env.pathInfo == "/download"))
              || (m == "POST" && env.pathInfo == "/upload")
              || m == "OPTIONS"))
  {
  }

  /** Every answer announces the exact size of its body: the length of the
      text, the total of the streamed pieces, or zero. */
  lemma ContentLengthIsBodySize(env: Environ)
    requires Respond(env).Some?
    ensures var r := Respond(env).value;
      var cl := Lookup(r.headers, "Content-Length");
      cl.Some?
      && (r.body.Text? ==> ParseNat(cl.value) == Some(|r.body.text|))
      && (r.body.Stream? ==> r.body.pieceSize > 0 && ParseNat(cl.value) == Some(Sum(Chunks(r.body.length, r.body.pieceSize))))
      && (r.body.NoBody? ==> cl.value == "0")
  {
    if env.requestMethod == "GET" {
      if env.pathInfo == "/hello" {
        SimpleResponseLength("hello", StatusOk);
      } else if env.pathInfo == "/download" {
        DownloadResponseSays(QueryParams(env), PieceSize);
      } else {
        SimpleResponseLength("Not Found", StatusNotFound);
      }
    } else if env.requestMethod == "POST" {
      if env.pathInfo == "/upload" {
        SimpleResponseLength("size=" + IntToString(ContentLength(env).value), StatusOk);
      } else {
        SimpleResponseLength("Not Found", StatusNotFound);
      }
    } else if env.requestMethod == "OPTIONS" {
      OptionsHeadersSay(env);
    } else {
      NatRoundTrip(|"Method Not Allowed\n"|);
    }
  }

  /** The generator a download returns yields exactly what the answer
      announces: pieces of at most 1 KiB adding up to the Content-Length. */
  lemma DownloadPayloadMatches(env: Environ)
    requires IsDownload(env)
    ensures var r := Respond(env).value;
      r.body == Stream(DownloadLength(QueryParams(env)), PieceSize)
      && Sum(Chunks(r.body.length, PieceSize)) == r.body.length > 0
      && (forall i :: 0 <= i < |Chunks(r.body.length, PieceSize)| ==> 1 <= Chunks(r.body.length, PieceSize)[i] <= PieceSize)
  {
    DownloadResponseSays(QueryParams(env), PieceSize);
  }
}
