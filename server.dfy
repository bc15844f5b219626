/** The WSGI application of lib/qospeedtest/server.py. Requests are
    dispatched on the method; the path is compared with its leading slashes
    removed. GET serves `hello` and `download`, POST serves `upload` after
    checking that a Content-Length was given, OPTIONS answers with the CORS
    headers, and every other method is refused. */
module Server {
  import opened Common
  import opened Decimal
  import opened Chunking
  import opened QoSpeedTest
  import opened Wsgi

  /** The package version the hello message carries. */
  const Version := "0.0.0"
  const HelloMessage := "hello qospeedtest-server " + Version
  /** The upload is read in chunks of at most 1 MiB. */
  const UploadChunk: nat := 1048576

  /** `s.lstrip("/")`. */
  function StripLeadingSlashes(s: string): (r: string)
    ensures |r| <= |s| && r == s[|s| - |r|..]
    ensures |r| > 0 ==> r[0] != '/'
    ensures forall i :: 0 <= i < |s| - |r| ==> s[i] == '/'
    decreases |s|
  {
    if |s| > 0 && s[0] == '/' then StripLeadingSlashes(s[1..]) else s
  }

  function Path(env: Environ): string
  {
    StripLeadingSlashes(env.pathInfo)
  }

  /** The confirmation of an upload: the announced length as `size=N`. */
  function UploadResponse(contentLength: int): Response
  {
    SimpleResponse("size=" + IntToString(contentLength), StatusOk)
  }

  /** The answer to a request, by method and path. */
  function Respond(env: Environ): Response
  {
    if env.requestMethod == "GET" then
      if Path(env) == "hello" then SimpleResponse(HelloMessage, StatusOk)
      else if Path(env) == "download" then DownloadResponse(QueryParams(env), PoolSize)
      else SimpleResponse("Not Found", StatusNotFound)
    else if env.requestMethod == "POST" then
      if ContentLength(env).None? then SimpleResponse("Bad Request", StatusBadRequest)
      else if Path(env) == "upload" then UploadResponse(ContentLength(env).value)
      else SimpleResponse("Not Found", StatusNotFound)
    else if env.requestMethod == "OPTIONS" then Response(StatusOk, OptionsHeaders(env), NoBody)
    else SimpleResponse("Method Not Allowed", StatusNotAllowed)
  }

  /** The reads an answer makes from the request body: the chunks of the
      announced length for an upload, none otherwise. */
  function UploadReads(env: Environ): seq<nat>
  {
    if env.requestMethod == "POST" && ContentLength(env).Some? && Path(env) == "upload"
    then Chunks(ContentLength(env).value, UploadChunk)
    else []
  }

  /** The application object: each call stores the request it serves and
      the parts of it the handlers read. */
  class ServerApplication {
    var environ: Environ
    var path: string
    var queryParams: map<string, seq<string>>

    /** Before the first call no request is stored. */
    constructor ()
      ensures queryParams == map[] && path == ""
    {
      environ := Environ("", "", None, None, None, None);
      path := "";
      queryParams := map[];
    }

    /** `__call__`: remember the request, then hand it to the handler for
        its method, or refuse the method. */
    method Call(env: Environ, input: InputStream) returns (resp: Response)
      modifies this, input
      ensures environ == env && path == Path(env) && queryParams == QueryParams(env)
      ensures resp == Respond(env)
      ensures input.requested == old(input.requested) + UploadReads(env)
    {
      environ := env;
      path := StripLeadingSlashes(env.pathInfo);
      queryParams := QueryParams(env);
      if env.requestMethod == "GET" {
        resp := MethodGet();
      } else if env.requestMethod == "POST" {
        resp := MethodPost(input);
      } else if env.requestMethod == "OPTIONS" {
        resp := MethodOptions();
      } else {
        resp := SimpleResponse("Method Not Allowed", StatusNotAllowed);
      }
    }

    method MethodGet() returns (resp: Response)
      requires environ.requestMethod == "GET" && path == Path(environ) && queryParams == QueryParams(environ)
      ensures resp == Respond(environ)
    {
      if path == "hello" {
        resp := SimpleResponse(HelloMessage, StatusOk);
      } else if path == "download" {
        resp := ProcessDownload();
      } else {
        resp := SimpleResponse("Not Found", StatusNotFound);
      }
    }

    /** The size comes from the stored query parameters. */
    method ProcessDownload() returns (resp: Response)
      ensures resp == DownloadResponse(queryParams, PoolSize)
    {
      var outputLen := RequestedSize(queryParams);
      if outputLen <= 0 {
        outputLen := DefaultDownloadLength;
      }
      resp := Response(StatusOk, DownloadHeaders(outputLen), Stream(outputLen, PoolSize));
    }

    /** A missing or unreadable Content-Length is refused before routing. */
    method MethodPost(input: InputStream) returns (resp: Response)
      requires environ.requestMethod == "POST" && path == Path(environ)
      modifies input
      ensures resp == Respond(environ)
      ensures input.requested == old(input.requested) + UploadReads(environ)
    {
      if ContentLength(environ).None? {
        return SimpleResponse("Bad Request", StatusBadRequest);
      }
      if path == "upload" {
        resp := ProcessUpload(input);
      } else {
        resp := SimpleResponse("Not Found", StatusNotFound);
      }
    }

    /** Reads the whole announced body in chunks of at most 1 MiB, then
        confirms its length. */
    method ProcessUpload(input: InputStream) returns (resp: Response)
      requires ContentLength(environ).Some?
      modifies input
      ensures resp == UploadResponse(ContentLength(environ).value)
      ensures input.requested == old(input.requested) + Chunks(ContentLength(environ).value, UploadChunk)
    {
      var contentLength := ContentLength(environ).value;
      Drain(input, contentLength, UploadChunk);
      resp := UploadResponse(contentLength);
    }

    method MethodOptions() returns (resp: Response)
      ensures resp == Response(StatusOk, OptionsHeaders(environ), NoBody)
    {
      var headers := BuildOptionsHeaders(environ);
      resp := Response(StatusOk, headers, NoBody);
    }
  }

  // ---------------------------------------------------------------------------
  // What every answer satisfies
  // ---------------------------------------------------------------------------

  /** The status of every answer, by case: 405 exactly for a method without a
      handler, 400 exactly for a POST without a readable Content-Length, 404
      exactly for an unknown path of GET or POST, 200 otherwise. */
  lemma RespondStatus(env: Environ)
    ensures var m := env.requestMethod;
      (Respond(env).status == StatusNotAllowed <==> m != "GET" && m != "POST" && m != "OPTIONS")
      && (Respond(env).status == StatusBadRequest <==> m == "POST" && ContentLength(env).None?)
      && (Respond(env).status == StatusNotFound <==>
            (m == "GET" && Path(env) != "hello" && Path(env) != "download")
            || (m == "POST" && ContentLength(env).Some? && Path(env) != "upload"))
      && (Respond(env).status == StatusOk <==>
            (m == "GET" && (Path(env) == "hello" || Path(env) == "download"))
            || (m == "POST" && ContentLength(env).Some? && Path(env) == "upload")
            || m == "OPTIONS")
  {
  }

  /** Every answer announces the exact size of its body: the length of the
      text, the total of the streamed pieces, or zero. */
  lemma ContentLengthIsBodySize(env: Environ)
    ensures var r := Respond(env);
      var cl := Lookup(r.headers, "Content-Length");
      cl.Some?
      && (r.body.Text? ==> ParseNat(cl.value) == Some(|r.body.text|))
      && (r.body.Stream? ==> r.body.pieceSize > 0 && ParseNat(cl.value) == Some(Sum(Chunks(r.body.length, r.body.pieceSize))))
      && (r.body.NoBody? ==> cl.value == "0")
  {
    if env.requestMethod == "GET" {
      if Path(env) == "hello" {
        SimpleResponseLength(HelloMessage, StatusOk);
      } else if Path(env) == "download" {
        DownloadResponseSays(QueryParams(env), PoolSize);
      } else {
        SimpleResponseLength("Not Found", StatusNotFound);
      }
    } else if env.requestMethod == "POST" {
      if ContentLength(env).None? {
        SimpleResponseLength("Bad Request", StatusBadRequest);
      } else if Path(env) == "upload" {
        SimpleResponseLength("size=" + IntToString(ContentLength(env).value), StatusOk);
      } else {
        SimpleResponseLength("Not Found", StatusNotFound);
      }
    } else if env.requestMethod == "OPTIONS" {
      OptionsHeadersSay(env);
    } else {
      SimpleResponseLength("Method Not Allowed", StatusNotAllowed);
    }
  }

  /** The hello answer, whatever number of slashes precede `hello`, is a text
      starting with "hello". */
  lemma HelloStartsWithHello(env: Environ)
    requires env.requestMethod == "GET" && Path(env) == "hello"
    ensures Respond(env).body.Text? && |Respond(env).body.text| >= 5 && Respond(env).body.text[..5] == "hello"
  {
  }

  /** An upload reads exactly the announced number of bytes, in chunks of at
      most 1 MiB, and confirms that number as `size=N`. */
  lemma UploadReadsAnnouncedLength(env: Environ)
    requires env.requestMethod == "POST" && Path(env) == "upload" && ContentLength(env).Some?
    ensures Respond(env).body == Text("size=" + IntToString(ContentLength(env).value) + "\n")
    ensures Sum(UploadReads(env)) == if ContentLength(env).value > 0 then ContentLength(env).value else 0
    ensures forall i :: 0 <= i < |UploadReads(env)| ==> 1 <= UploadReads(env)[i] <= UploadChunk
  {
    ChunksSum(ContentLength(env).value, UploadChunk);
    ChunksBounds(ContentLength(env).value, UploadChunk);
  }
}
