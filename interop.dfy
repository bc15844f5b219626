/** How the client of lib/qospeedtest/client.py reads what the two WSGI
    applications answer: both hello replies pass its check, both upload
    confirmations read back as the announced length, and the size checks
    it makes on each transfer succeed exactly for the sizes the servers can
    honour. */
module Interop {
  import opened Common
  import opened Decimal
  import opened Chunking
  import opened QoSpeedTest
  import opened Client
  import opened Wsgi
  import S = Server
  import P = ServerPackage

  /** A text without white space at either end, followed by one newline,
      strips back to itself. */
  lemma StripNewline(s: string)
    requires |s| > 0 && !IsSpace(s[0]) && !IsSpace(s[|s| - 1])
    ensures Strip(s + "\n") == s
  {
    var t := s + "\n";
    assert TrimLeft(t) == t;
    assert t[..|t| - 1] == s;
    assert TrimRight(t) == TrimRight(s);
  }

  /** The last character of a decimal integer is a digit. */
  lemma IntToStringEndsInDigit(n: int)
    ensures IsDigit(IntToString(n)[|IntToString(n)| - 1])
  {
    if n < 0 {
      assert IntToString(n)[|IntToString(n)| - 1] == NatToString(-n)[|NatToString(-n)| - 1];
    }
  }

  /** The client reads back the number of any `size=N` line, whatever white
      space surrounds it. */
  lemma ConfirmedSizeReadsPadded(n: int, lead: string, trail: string)
    requires AllSpace(lead) && AllSpace(trail)
    ensures ConfirmedSize(lead + "size=" + IntToString(n) + trail) == Some(n)
  {
    var line := "size=" + IntToString(n);
    IntToStringEndsInDigit(n);
    assert line[|line| - 1] == IntToString(n)[|IntToString(n)| - 1];
    StripPadded(lead, line, trail);
    assert lead + "size=" + IntToString(n) + trail == lead + line + trail;
    assert line[..5] == "size=" && line[5..] == IntToString(n);
    IntRoundTrip(n);
    assert ConfirmedSize(lead + line + trail) == ParseInt(line[5..]);
  }

  /** The text `size=N` plus a newline is read back as `N`. */
  lemma SizeLineReadsBack(n: int)
    ensures ConfirmedSize("size=" + IntToString(n) + "\n") == Some(n)
  {
    ConfirmedSizeReadsPadded(n, "", "\n");
    assert "" + "size=" + IntToString(n) + "\n" == "size=" + IntToString(n) + "\n";
  }

  /** The hello reply of either application passes the client's hello check. */
  lemma HelloAccepted(env: Environ)
    requires env.requestMethod == "GET"
    ensures S.Path(env) == "hello" ==> S.Respond(env).body.Text? && HelloOk(S.Respond(env).body.text)
    ensures env.pathInfo == "/hello" ==> P.Respond(env).Some? && P.Respond(env).value.body.Text? && HelloOk(P.Respond(env).value.body.text)
  {
    StripNewline(S.HelloMessage);
    StripNewline("hello");
  }

  /** The upload confirmation of either application is read by the client as
      the announced Content-Length. */
  lemma UploadConfirmed(env: Environ)
    requires env.requestMethod == "POST" && ContentLength(env).Some?
    ensures S.Path(env) == "upload" ==>
      S.Respond(env).body.Text? && ConfirmedSize(S.Respond(env).body.text) == ContentLength(env)
    ensures env.pathInfo == "/upload" ==>
      P.Respond(env).Some? && P.Respond(env).value.body.Text? && ConfirmedSize(P.Respond(env).value.body.text) == ContentLength(env)
  {
    SizeLineReadsBack(ContentLength(env).value);
  }

  /** server.py strips the one slash of `/name` and routes on `name`. */
  lemma SlashedPath(env: Environ, name: string)
    requires |name| > 0 && name[0] != '/' && env.pathInfo == "/" + name
    ensures S.Path(env) == name
  {
    assert env.pathInfo[1..] == name;
  }

  /** A download request for `projected` bytes, as `size=<projected>` in the
      query string, brings back the whole stream either application sends;
      the client's size check passes exactly when `projected` is positive,
      since any other size is answered with the 10 GiB default. A download's
      check reads no reply text, so none is passed. */
  lemma DownloadChecked(p: Params, env: Environ)
    requires p.mode == Download && env.requestMethod == "GET" && env.pathInfo == "/download"
    requires "size" in QueryParams(env) && |QueryParams(env)["size"]| > 0
    requires ParseInt(QueryParams(env)["size"][0]).Some?
    ensures var projected := ParseInt(QueryParams(env)["size"][0]).value;
      var b1 := S.Respond(env).body;
      var b2 := P.Respond(env).value.body;
      && b1.Stream? && b1.pieceSize > 0 && b2.Stream? && b2.pieceSize > 0
      && Sum(Chunks(b1.length, b1.pieceSize)) == Sum(Chunks(b2.length, b2.pieceSize)) == DownloadLength(QueryParams(env))
      && (CheckSize(p, projected, Sum(Chunks(b1.length, b1.pieceSize)), "").None? <==> projected > 0)
      && (projected <= 0 ==> CheckSize(p, projected, Sum(Chunks(b1.length, b1.pieceSize)), "") == Some(WrongSize))
  {
    SlashedPath(env, "download");
    DownloadResponseSays(QueryParams(env), PoolSize);
    DownloadResponseSays(QueryParams(env), P.PieceSize);
  }

  /** The size the client writes into the query string is read back by the
      applications. */
  lemma SizeParamReadsBack(env: Environ, projected: int)
    requires "size" in QueryParams(env) && QueryParams(env)["size"] == [IntToString(projected)]
    ensures ParseInt(QueryParams(env)["size"][0]) == Some(projected)
    ensures DownloadLength(QueryParams(env)) == if projected > 0 then projected else DefaultDownloadLength
  {
    IntRoundTrip(projected);
  }

  /** The client's check of an upload confirmation of `max(projected, 0)`
      bytes passes exactly when `projected` is not negative. */
  lemma ConfirmationChecked(p: Params, projected: int, received: int, reply: string)
    requires p.mode == Upload
    requires ConfirmedSize(reply) == Some(if projected > 0 then projected else 0)
    ensures CheckSize(p, projected, received, reply).None? <==> projected >= 0
  {
  }

  /** An upload of `projected` bytes sends the joined semi-random chunks,
      `max(projected, 0)` bytes, announced as the Content-Length; either
      application confirms that length, so the client's size check passes
      exactly when `projected` is not negative. */
  lemma UploadChecked(p: Params, env: Environ, projected: int, received: int)
    requires p.mode == Upload && env.requestMethod == "POST" && env.pathInfo == "/upload"
    requires env.contentLength == Some(IntToString(Sum(Chunks(projected, PoolSize))))
    ensures ContentLength(env) == Some(if projected > 0 then projected else 0)
    ensures CheckSize(p, projected, received, S.Respond(env).body.text).None? <==> projected >= 0
    ensures CheckSize(p, projected, received, P.Respond(env).value.body.text).None? <==> projected >= 0
  {
    ChunksSum(projected, PoolSize);
    IntRoundTrip(Sum(Chunks(projected, PoolSize)));
    SlashedPath(env, "upload");
    UploadConfirmed(env);
    ConfirmationChecked(p, projected, received, S.Respond(env).body.text);
    ConfirmationChecked(p, projected, received, P.Respond(env).value.body.text);
  }
}
