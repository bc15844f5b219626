/** The measuring loop of the client (`QOSpeedTest.do_test` in
    lib/qospeedtest/client.py): a hello check, then requests whose size is
    steered so that each takes about `target` seconds. Ramp-up requests that
    miss the band (0.9 T, 1.5 T) only resize the next request; counted
    requests feed two EWMAs and the sample list, and the loop stops on the
    sample cap or once the smoothed time settles inside (0.95 T, 1.25 T).

    The transport is an input: each request is one `Observation`. */
module Client {
  import opened Common
  import opened Decimal
  import opened QoSpeedTest

  // ---------------------------------------------------------------------------
  // Text helpers: `str.strip()` and the reading of the upload confirmation
  // ---------------------------------------------------------------------------

  /** The characters Python's `str.isspace` accepts, which `str.strip()`
      removes: tab to carriage return, the four information separators
      0x1C-0x1F, the space, NEL, the no-break space and the Unicode spaces
      and line and paragraph separators. */
  predicate IsSpace(c: char)
  {
    || (9 as char <= c <= 13 as char)
    || (0x1c as char <= c <= 0x20 as char)
    || c == 0x85 as char || c == 0xa0 as char || c == 0x1680 as char
    || (0x2000 as char <= c <= 0x200a as char)
    || c == 0x2028 as char || c == 0x2029 as char || c == 0x202f as char
    || c == 0x205f as char || c == 0x3000 as char
  }

  /** `s` without its leading white space. */
  function TrimLeft(s: string): (r: string)
    ensures |r| <= |s| && r == s[|s| - |r|..]
    ensures |r| > 0 ==> !IsSpace(r[0])
    ensures forall i :: 0 <= i < |s| - |r| ==> IsSpace(s[i])
    decreases |s|
  {
    if |s| > 0 && IsSpace(s[0]) then TrimLeft(s[1..]) else s
  }

  /** `s` without its trailing white space. */
  function TrimRight(s: string): (r: string)
    ensures |r| <= |s| && r == s[..|r|]
    ensures |r| > 0 ==> !IsSpace(r[|r| - 1])
    ensures forall i :: |r| <= i < |s| ==> IsSpace(s[i])
    decreases |s|
  {
    if |s| > 0 && IsSpace(s[|s| - 1]) then TrimRight(s[..|s| - 1]) else s
  }

  /** `str.strip()`: white space removed at both ends. */
  function Strip(s: string): string
  {
    TrimRight(TrimLeft(s))
  }

  predicate AllSpace(s: string) { forall i :: 0 <= i < |s| ==> IsSpace(s[i]) }

  /** White space in front is removed whatever follows it. */
  lemma {:induction false} TrimLeftSkipsSpace(lead: string, t: string)
    requires AllSpace(lead)
    ensures TrimLeft(lead + t) == TrimLeft(t)
    decreases |lead|
  {
    if lead != [] {
      assert (lead + t)[1..] == lead[1..] + t;
      TrimLeftSkipsSpace(lead[1..], t);
    } else {
      assert lead + t == t;
    }
  }

  /** White space behind is removed whatever precedes it. */
  lemma {:induction false} TrimRightSkipsSpace(t: string, trail: string)
    requires AllSpace(trail)
    ensures TrimRight(t + trail) == TrimRight(t)
    decreases |trail|
  {
    if trail != [] {
      var u := t + trail;
      assert u[|u| - 1] == trail[|trail| - 1];
      assert u[..|u| - 1] == t + trail[..|trail| - 1];
      TrimRightSkipsSpace(t, trail[..|trail| - 1]);
    } else {
      assert t + trail == t;
    }
  }

  /** Stripping a text padded with white space gives back the text, when it
      neither starts nor ends with white space. */
  lemma StripPadded(lead: string, text: string, trail: string)
    requires AllSpace(lead) && AllSpace(trail)
    requires |text| > 0 && !IsSpace(text[0]) && !IsSpace(text[|text| - 1])
    ensures Strip(lead + text + trail) == text
  {
    assert lead + text + trail == lead + (text + trail);
    TrimLeftSkipsSpace(lead, text + trail);
    assert (text + trail)[0] == text[0];
    assert TrimLeft(text + trail) == text + trail;
    TrimRightSkipsSpace(text, trail);
  }

  predicate StartsWith(s: string, prefix: string)
  {
    |prefix| <= |s| && s[..|prefix|] == prefix
  }

  /** The server passes the hello check when its stripped reply starts with "hello". */
  predicate HelloOk(reply: string)
  {
    StartsWith(Strip(reply), "hello")
  }

  /** The size the server confirms after an upload: the integer after `size=`
      in the stripped reply, or nothing when the reply has another shape. */
  function ConfirmedSize(reply: string): (r: Option<int>)
    ensures r.Some? ==> StartsWith(Strip(reply), "size=")
  {
    var t := Strip(reply);
    if StartsWith(t, "size=") then ParseInt(t[5..]) else None
  }

  // ---------------------------------------------------------------------------
  // Request parameters
  // ---------------------------------------------------------------------------

  /** `st_request`'s handling of the query parameters: the caller's map is
      copied, and the copy gets the session `guid` and a fresh `nocache`. */
  method StRequestParams(params: map<string, string>, sessionGuid: string, nonce: string)
    returns (sent: map<string, string>)
    ensures sent.Keys == params.Keys + {"guid", "nocache"}
    ensures sent["guid"] == sessionGuid && sent["nocache"] == nonce
    ensures forall k :: k in params && k != "guid" && k != "nocache" ==> sent[k] == params[k]
  {
    sent := params;
    sent := sent["guid" := sessionGuid];
    sent := sent["nocache" := nonce];
  }

  // ---------------------------------------------------------------------------
  // The controller as a step function
  // ---------------------------------------------------------------------------

  datatype Mode = Download | Upload

  /** The command-line settings the loop reads: EWMA weight, target request
      time in seconds, sample bounds and initial sizes. */
  datatype Params = Params(
    mode: Mode,
    weight: real,
    target: real,
    minSamples: int,
    maxSamples: int,
    initialDownload: int,
    initialUpload: int)

  /** What one request gives back: for a download the number of body bytes
      received, for an upload the text of the reply, and in both cases the
      transfer time in seconds; or a failed request. */
  datatype Observation =
    | Transferred(received: int, reply: string, elapsed: real)
    | RequestFailed

  /** The loop's variables between two requests. */
  datatype Session = Session(
    projected: int,
    rampup: bool,
    bps: EwmaState,
    time: EwmaState,
    transferCount: nat,
    bytesSum: int,
    samples: seq<real>)

  datatype Error =
    | BadHello          // the hello reply does not start with "hello"
    | TransportError    // the request failed
    | WrongSize         // download size or upload confirmation differs from the request
    | MalformedReply    // the upload reply carries no readable size
    | ZeroElapsed       // a transfer time of zero: division by zero
    | ZeroWeight        // an EWMA weight of zero: division by zero at the first average
    | ZeroRate          // a zero average rate when the spread is reported: division by zero

  datatype StepResult = Abort(error: Error) | Continue(next: Session) | Stop(last: Session)

  /** The final report: the smoothed rate, the bytes moved in all requests,
      and whether a spread (standard deviation, lowest, highest) is shown. */
  datatype Summary = Summary(rate: real, transferred: int, showsSpread: bool)

  /** How a run ends: an error, a stop after `used` observations with its
      summary, or the observations ran out while the loop was still going. */
  datatype Outcome =
    | Aborted(error: Error)
    | Completed(final: Session, used: nat, summary: Summary)
    | Unfinished(current: Session)

  function InitialSize(p: Params): int
  {
    if p.mode == Download then p.initialDownload else p.initialUpload
  }

  /** The variables right before the first request. */
  function Start(p: Params): (s: Session)
    ensures s.projected == InitialSize(p)
    ensures s.rampup && s.samples == [] && s.transferCount == 0 && s.bytesSum == 0
    ensures s.bps.initial && s.time.initial
  {
    Session(InitialSize(p), true, NewEwma(p.weight, 0.0), NewEwma(p.weight, 0.0), 0, 0, [])
  }

  /** The size check of one transfer: the download must bring exactly the
      requested bytes, the upload must be confirmed with exactly that size. */
  function CheckSize(p: Params, projected: int, received: int, reply: string): Option<Error>
  {
    if p.mode == Download then
      if received != projected then Some(WrongSize) else None
    else
      match ConfirmedSize(reply)
      case None => Some(MalformedReply)
      case Some(n) => if n != projected then Some(WrongSize) else None
  }

  /** The ramp-up band: strictly between 0.9 and 1.5 times the target. */
  predicate InRampBand(p: Params, elapsed: real)
  {
    p.target * 0.9 < elapsed < p.target * 1.5
  }

  /** The convergence band of the smoothed time: strictly between 0.95 and
      1.25 times the target. */
  predicate Converged(p: Params, smoothedTime: real)
  {
    p.target * 0.95 < smoothedTime < p.target * 1.25
  }

  /** The size for the next request from a rate in bits per second:
      `int(rate * target / 8)`. */
  function NextSize(p: Params, rate: real): int
  {
    Trunc(rate * p.target / 8.0)
  }

  /** The rate of one transfer in bits per second. */
  function Rate(bytes: int, elapsed: real): real
    requires elapsed != 0.0
  {
    bytes as real / elapsed * 8.0
  }

  /** The session once a transfer is counted: one more request and its
      bytes, whether or not the sample is kept. */
  function Counted(s: Session): Session
  {
    s.(transferCount := s.transferCount + 1, bytesSum := s.bytesSum + s.projected)
  }

  /** The session once a sample is recorded: ramp-up is over, each EWMA takes
      one value and the sample list one entry. */
  function Recorded(s: Session, rate: real, elapsed: real): Session
    requires s.bps.initial || s.bps.weight != 0.0
    requires s.time.initial || s.time.weight != 0.0
  {
    s.(rampup := false, bps := s.bps.Add(rate), time := s.time.Add(elapsed), samples := s.samples + [rate])
  }

  /** After a transfer is counted: recording a sample, then the stop tests. */
  function Record(p: Params, s: Session, rate: real, elapsed: real): (r: StepResult)
    requires p.weight != 0.0
    requires s.bps.weight == p.weight && s.time.weight == p.weight
    ensures !r.Abort?
    ensures var t := if r.Stop? then r.last else r.next;
      !t.rampup && t.samples == s.samples + [rate] && t.transferCount == s.transferCount && t.bytesSum == s.bytesSum
  {
    var t := Recorded(s, rate, elapsed);
    if |t.samples| >= p.maxSamples then Stop(t)
    else if |t.samples| >= p.minSamples && Converged(p, t.time.Average()) then Stop(t)
    else Continue(t.(projected := NextSize(p, t.bps.Average())))
  }

  /** One pass of the `while True` loop for one request. */
  function Step(p: Params, s: Session, o: Observation): (r: StepResult)
    requires s.bps.weight == p.weight && s.time.weight == p.weight
    ensures !r.Abort? ==> o.Transferred? && CheckSize(p, s.projected, o.received, o.reply).None? && o.elapsed != 0.0
    ensures r.Continue? ==> r.next.transferCount == s.transferCount + 1 && r.next.bytesSum == s.bytesSum + s.projected
    ensures r.Stop? ==> r.last.transferCount == s.transferCount + 1 && r.last.bytesSum == s.bytesSum + s.projected && !r.last.rampup
  {
    match o
    case RequestFailed => Abort(TransportError)
    case Transferred(received, reply, elapsed) =>
      match CheckSize(p, s.projected, received, reply)
      case Some(e) => Abort(e)
      case None =>
        if elapsed == 0.0 then Abort(ZeroElapsed)
        else
          var rate := Rate(s.projected, elapsed);
          if s.rampup && !InRampBand(p, elapsed) then
            Continue(Counted(s).(projected := NextSize(p, rate)))
          else if p.weight == 0.0 then Abort(ZeroWeight)
          else Record(p, Counted(s), rate, elapsed)
  }

  /** Every session a run goes through keeps the EWMA weights of the settings. */
  predicate Weighted(p: Params, s: Session)
  {
    s.bps.weight == p.weight && s.time.weight == p.weight
  }

  lemma StepKeepsWeights(p: Params, s: Session, o: Observation)
    requires Weighted(p, s)
    ensures Step(p, s, o).Continue? ==> Weighted(p, Step(p, s, o).next)
    ensures Step(p, s, o).Stop? ==> Weighted(p, Step(p, s, o).last)
  {
  }

  /** The report printed after the loop. The standard deviation is only
      computed for more than one sample, and its ratio to the average rate
      divides by that average. */
  function Summarize(s: Session): (r: Option<Summary>)
    requires s.bps.weight != 0.0
    ensures r.Some? ==> r.value.showsSpread == (|s.samples| > 1)
    ensures r.Some? ==> r.value.rate == s.bps.Average() && r.value.transferred == s.bytesSum
    ensures r.None? <==> |s.samples| > 1 && s.bps.Average() == 0.0
  {
    if |s.samples| > 1 && s.bps.Average() == 0.0 then None
    else Some(Summary(s.bps.Average(), s.bytesSum, |s.samples| > 1))
  }

  /** The loop run over the observations from index `i` on, from the
      session `s`; `used` counts the observations consumed from the start. */
  function Run(p: Params, s: Session, obs: seq<Observation>, i: nat): (r: Outcome)
    requires Weighted(p, s)
    ensures r.Completed? ==> i < r.used <= |obs|
    decreases |obs| - i
  {
    if i >= |obs| then Unfinished(s)
    else
      StepKeepsWeights(p, s, obs[i]);
      match Step(p, s, obs[i])
      case Abort(e) => Aborted(e)
      case Stop(t) =>
        (match Summarize(t)
         case None => Aborted(ZeroRate)
         case Some(sum) => Completed(t, i + 1, sum))
      case Continue(t) => Run(p, t, obs, i + 1)
  }

  /** `do_test` from the hello request on; `hello` is the text of its reply,
      or `None` when that request failed. */
  function Test(p: Params, hello: Option<string>, obs: seq<Observation>): (r: Outcome)
    ensures r.Completed? ==> hello.Some? && HelloOk(hello.value) && 0 < r.used <= |obs|
  {
    if hello.None? then Aborted(TransportError)
    else if !HelloOk(hello.value) then Aborted(BadHello)
    else Run(p, Start(p), obs, 0)
  }

  lemma StepSizeFails(p: Params, s: Session, o: Observation, e: Error)
    requires Weighted(p, s) && o.Transferred?
    requires CheckSize(p, s.projected, o.received, o.reply) == Some(e)
    ensures Step(p, s, o) == Abort(e)
  {
  }

  lemma StepNoTime(p: Params, s: Session, o: Observation)
    requires Weighted(p, s) && o.Transferred? && o.elapsed == 0.0
    requires CheckSize(p, s.projected, o.received, o.reply) == None
    ensures Step(p, s, o) == Abort(ZeroElapsed)
  {
  }

  lemma StepDiscards(p: Params, s: Session, o: Observation)
    requires Weighted(p, s) && o.Transferred? && o.elapsed != 0.0
    requires CheckSize(p, s.projected, o.received, o.reply) == None
    requires s.rampup && !InRampBand(p, o.elapsed)
    ensures Step(p, s, o) == Continue(Counted(s).(projected := NextSize(p, Rate(s.projected, o.elapsed))))
  {
  }

  lemma StepNoWeight(p: Params, s: Session, o: Observation)
    requires Weighted(p, s) && o.Transferred? && o.elapsed != 0.0
    requires CheckSize(p, s.projected, o.received, o.reply) == None
    requires !(s.rampup && !InRampBand(p, o.elapsed)) && p.weight == 0.0
    ensures Step(p, s, o) == Abort(ZeroWeight)
  {
  }

  lemma StepRecords(p: Params, s: Session, o: Observation)
    requires Weighted(p, s) && o.Transferred? && o.elapsed != 0.0
    requires CheckSize(p, s.projected, o.received, o.reply) == None
    requires !(s.rampup && !InRampBand(p, o.elapsed)) && p.weight != 0.0
    ensures Step(p, s, o) == Record(p, Counted(s), Rate(s.projected, o.elapsed), o.elapsed)
  {
  }

  lemma RecordStops(p: Params, s: Session, rate: real, elapsed: real)
    requires p.weight != 0.0 && Weighted(p, s)
    requires var t := Recorded(s, rate, elapsed);
      |t.samples| >= p.maxSamples || (|t.samples| >= p.minSamples && Converged(p, t.time.Average()))
    ensures Record(p, s, rate, elapsed) == Stop(Recorded(s, rate, elapsed))
  {
  }

  lemma RecordContinues(p: Params, s: Session, rate: real, elapsed: real)
    requires p.weight != 0.0 && Weighted(p, s)
    requires var t := Recorded(s, rate, elapsed);
      !(|t.samples| >= p.maxSamples || (|t.samples| >= p.minSamples && Converged(p, t.time.Average())))
    ensures var t := Recorded(s, rate, elapsed);
      Record(p, s, rate, elapsed) == Continue(t.(projected := NextSize(p, t.bps.Average())))
  {
  }

  /** One pass of the loop body on the live EWMA objects: the request's
      result `o` is checked, counted and possibly recorded, and the loop's
      plain variables come back inside the result. */
  method Exchange(p: Params, o: Observation, ewmaBps: Ewma, ewmaTime: Ewma,
                  projected: int, rampup: bool, transferCount: nat, bytesSum: int, samples: seq<real>)
    returns (r: StepResult)
    requires ewmaBps != ewmaTime
    requires ewmaBps.weight == p.weight && ewmaTime.weight == p.weight
    requires p.weight == 0.0 ==> ewmaBps.initial && ewmaTime.initial
    modifies ewmaBps, ewmaTime
    ensures r == Step(p, Session(projected, rampup, old(ewmaBps.Value()), old(ewmaTime.Value()), transferCount, bytesSum, samples), o)
    ensures r.Continue? ==> r.next.bps == ewmaBps.Value() && r.next.time == ewmaTime.Value()
    ensures r.Stop? ==> r.last.bps == ewmaBps.Value() && r.last.time == ewmaTime.Value()
  {
    ghost var s := Session(projected, rampup, ewmaBps.Value(), ewmaTime.Value(), transferCount, bytesSum, samples);
    if o.RequestFailed? {
      return Abort(TransportError);
    }
    var mismatch := CheckSize(p, projected, o.received, o.reply);
    if mismatch.Some? {
      StepSizeFails(p, s, o, mismatch.value);
      return Abort(mismatch.value);
    }
    if o.elapsed == 0.0 {
      StepNoTime(p, s, o);
      return Abort(ZeroElapsed);
    }
    var bps := Rate(projected, o.elapsed);
    if rampup && !InRampBand(p, o.elapsed) {
      StepDiscards(p, s, o);
      return Continue(Session(NextSize(p, bps), rampup, ewmaBps.Value(), ewmaTime.Value(), transferCount + 1, bytesSum + projected, samples));
    }
    if p.weight == 0.0 {
      // the first average read after recording divides by the weight
      StepNoWeight(p, s, o);
      return Abort(ZeroWeight);
    }
    StepRecords(p, s, o);
    ewmaBps.Add(bps);
    ewmaTime.Add(o.elapsed);
    var t := Session(projected, false, ewmaBps.Value(), ewmaTime.Value(), transferCount + 1, bytesSum + projected, samples + [bps]);
    assert t == Recorded(Counted(s), bps, o.elapsed);
    if |t.samples| >= p.maxSamples || (|t.samples| >= p.minSamples && Converged(p, ewmaTime.Average())) {
      RecordStops(p, Counted(s), bps, o.elapsed);
      return Stop(t);
    }
    RecordContinues(p, Counted(s), bps, o.elapsed);
    return Continue(t.(projected := NextSize(p, ewmaBps.Average())));
  }

  /** `do_test`, with the two EWMA objects and the loop variables updated in
      place request by request; it ends exactly as `Test` says. */
  method DoTest(p: Params, hello: Option<string>, obs: seq<Observation>) returns (outcome: Outcome)
    ensures outcome == Test(p, hello, obs)
  {
    if hello.None? {
      return Aborted(TransportError);
    }
    if !HelloOk(hello.value) {
      return Aborted(BadHello);
    }
    var projected := InitialSize(p);
    var ewmaBps := new Ewma(p.weight, 0.0);
    var ewmaTime := new Ewma(p.weight, 0.0);
    var transferCount: nat := 0;
    var bytesSum := 0;
    var samples: seq<real> := [];
    var rampup := true;
    var i := 0;
    while i < |obs|
      invariant 0 <= i <= |obs|
      invariant ewmaBps.weight == p.weight && ewmaTime.weight == p.weight
      invariant p.weight == 0.0 ==> ewmaBps.initial && ewmaTime.initial
      invariant Test(p, hello, obs) == Run(p, Session(projected, rampup, ewmaBps.Value(), ewmaTime.Value(), transferCount, bytesSum, samples), obs, i)
      decreases |obs| - i
    {
      ghost var s := Session(projected, rampup, ewmaBps.Value(), ewmaTime.Value(), transferCount, bytesSum, samples);
      var r := Exchange(p, obs[i], ewmaBps, ewmaTime, projected, rampup, transferCount, bytesSum, samples);
      assert r == Step(p, s, obs[i]);
      match r
      case Abort(e) =>
        return Aborted(e);
      case Stop(t) =>
        var summary := Summarize(t);
        if summary.None? {
          return Aborted(ZeroRate);
        }
        return Completed(t, i + 1, summary.value);
      case Continue(t) =>
        projected, rampup, transferCount, bytesSum, samples := t.projected, t.rampup, t.transferCount, t.bytesSum, t.samples;
        i := i + 1;
    }
    return Unfinished(Session(projected, rampup, ewmaBps.Value(), ewmaTime.Value(), transferCount, bytesSum, samples));
  }
}
