/** What the measuring loop of lib/qospeedtest/client.py guarantees about a
    whole run: how many samples it keeps, which requests it counts, why it
    stops, and that nothing after the stopping request matters. */
module ClientProperties {
  import opened Common
  import opened QoSpeedTest
  import opened Client

  /** What holds between two requests of any run: fewer samples than the cap
      (a cap below one still lets one sample in), no more samples than
      counted requests, and ramp-up lasts exactly as long as no sample is kept. */
  predicate Steady(p: Params, s: Session)
  {
    |s.samples| < Max(p.maxSamples, 1) && |s.samples| <= s.transferCount && (s.rampup <==> s.samples == [])
  }

  lemma StartIsSteady(p: Params)
    ensures Weighted(p, Start(p)) && Steady(p, Start(p))
  {
  }

  /** One request keeps the loop's invariant; the request is counted whether
      its sample is kept or discarded, and a stop comes with at least one
      sample, at most the cap, and for a reason: the cap or the settled time. */
  lemma StepIsSteady(p: Params, s: Session, o: Observation)
    requires Weighted(p, s) && Steady(p, s)
    ensures Step(p, s, o).Continue? ==> Steady(p, Step(p, s, o).next) && Step(p, s, o).next.transferCount == s.transferCount + 1
    ensures Step(p, s, o).Stop? ==>
      var t := Step(p, s, o).last;
      p.weight != 0.0 && Weighted(p, t) && 1 <= |t.samples| <= Max(p.maxSamples, 1) && |t.samples| <= t.transferCount && !t.rampup
      && t.transferCount == s.transferCount + 1
      && (|t.samples| >= p.maxSamples || (|t.samples| >= p.minSamples && Converged(p, t.time.Average())))
  {
    match o
    case RequestFailed =>
    case Transferred(received, reply, elapsed) =>
      if CheckSize(p, s.projected, received, reply).None? && elapsed != 0.0 {
        if s.rampup && !InRampBand(p, elapsed) {
          StepDiscards(p, s, o);
        } else if p.weight != 0.0 {
          StepRecords(p, s, o);
          var t := Recorded(Counted(s), Rate(s.projected, elapsed), elapsed);
          assert |t.samples| == |s.samples| + 1;
        }
      }
  }

  /** A request ends the test with an error exactly when it failed, its size
      does not check out, it took no time, or its sample would be recorded
      with an EWMA weight of zero. */
  lemma StepAborts(p: Params, s: Session, o: Observation)
    requires Weighted(p, s)
    ensures Step(p, s, o).Abort? <==>
      o.RequestFailed? || CheckSize(p, s.projected, o.received, o.reply).Some? || o.elapsed == 0.0
      || (!(s.rampup && !InRampBand(p, o.elapsed)) && p.weight == 0.0)
  {
    if o.Transferred? && CheckSize(p, s.projected, o.received, o.reply).None? && o.elapsed != 0.0 {
      if s.rampup && !InRampBand(p, o.elapsed) {
        StepDiscards(p, s, o);
      } else if p.weight != 0.0 {
        StepRecords(p, s, o);
      }
    }
  }

  /** A ramp-up request outside the band is counted but leaves both EWMAs
      and the samples alone; only the next size changes, to the size that
      would take the target time at this request's rate. */
  lemma DiscardKeepsAverages(p: Params, s: Session, o: Observation)
    requires Weighted(p, s) && o.Transferred? && o.elapsed != 0.0
    requires CheckSize(p, s.projected, o.received, o.reply).None?
    requires s.rampup && !InRampBand(p, o.elapsed)
    ensures Step(p, s, o).Continue?
    ensures var t := Step(p, s, o).next;
      t.bps == s.bps && t.time == s.time && t.samples == s.samples && t.rampup
      && t.projected == NextSize(p, Rate(s.projected, o.elapsed))
      && t.transferCount == s.transferCount + 1 && t.bytesSum == s.bytesSum + s.projected
  {
    StepDiscards(p, s, o);
  }

  /** A request that is not discarded ends ramp-up for good, feeds its rate
      and its time to the two EWMAs and appends its rate to the samples; the
      loop stops exactly when the cap is reached or, past the minimum, the
      smoothed time is in the band, and otherwise sizes the next request
      from the smoothed rate. */
  lemma RecordFeedsAverages(p: Params, s: Session, o: Observation)
    requires Weighted(p, s) && o.Transferred? && o.elapsed != 0.0 && p.weight != 0.0
    requires CheckSize(p, s.projected, o.received, o.reply).None?
    requires !(s.rampup && !InRampBand(p, o.elapsed))
    ensures var rate := Rate(s.projected, o.elapsed);
      var t := Recorded(Counted(s), rate, o.elapsed);
      !t.rampup && t.samples == s.samples + [rate] && t.bps == s.bps.Add(rate) && t.time == s.time.Add(o.elapsed)
      && t.transferCount == s.transferCount + 1 && t.bytesSum == s.bytesSum + s.projected
      && (Step(p, s, o).Stop? <==> |t.samples| >= p.maxSamples || (|t.samples| >= p.minSamples && Converged(p, t.time.Average())))
      && (Step(p, s, o).Stop? ==> Step(p, s, o).last == t)
      && (Step(p, s, o).Continue? ==> Step(p, s, o).next == t.(projected := NextSize(p, t.bps.Average())))
  {
    StepRecords(p, s, o);
  }

  /** The rate of a transfer, times its duration, gives back its bits. */
  lemma RateTimesElapsed(bytes: int, elapsed: real)
    requires elapsed != 0.0
    ensures Rate(bytes, elapsed) * elapsed == bytes as real * 8.0
  {
    var q := bytes as real / elapsed;
    assert q * elapsed == bytes as real;
    calc {
      Rate(bytes, elapsed) * elapsed;
      (q * 8.0) * elapsed;
      (q * elapsed) * 8.0;
    }
  }

  /** The next size, sent at `rate` bits per second, takes at most the target
      time, and one more byte would take it past the target. */
  lemma NextSizeAimsAtTarget(p: Params, rate: real)
    requires rate > 0.0 && p.target >= 0.0
    ensures NextSize(p, rate) >= 0
    ensures NextSize(p, rate) as real * 8.0 <= rate * p.target < (NextSize(p, rate) + 1) as real * 8.0
  {
    var x := rate * p.target / 8.0;
    assert x * 8.0 == rate * p.target;
    assert x >= 0.0;
    var n := Trunc(x);
    assert n as real <= x < n as real + 1.0;
  }

  /** A run from a session that keeps the invariant: when it completes, the
      final session has between one sample and the cap, is out of ramp-up,
      counted every request it consumed (discarded ones included), and
      stopped on the cap or on the settled time; when the requests run out,
      every one of them was counted. */
  lemma {:induction false} RunIsSteady(p: Params, s: Session, obs: seq<Observation>, i: nat)
    requires Weighted(p, s) && Steady(p, s) && i <= |obs|
    ensures var r := Run(p, s, obs, i);
      r.Completed? ==>
        p.weight != 0.0 && Weighted(p, r.final)
        && 1 <= |r.final.samples| <= Max(p.maxSamples, 1) && !r.final.rampup
        && |r.final.samples| <= r.final.transferCount
        && r.final.transferCount == s.transferCount + (r.used - i)
        && Summarize(r.final) == Some(r.summary)
        && r.summary.rate == r.final.bps.Average() && r.summary.transferred == r.final.bytesSum
        && (|r.final.samples| >= p.maxSamples || (|r.final.samples| >= p.minSamples && Converged(p, r.final.time.Average())))
    ensures var r := Run(p, s, obs, i);
      r.Unfinished? ==> Steady(p, r.current) && r.current.transferCount == s.transferCount + (|obs| - i)
    decreases |obs| - i
  {
    if i < |obs| {
      StepKeepsWeights(p, s, obs[i]);
      StepIsSteady(p, s, obs[i]);
      match Step(p, s, obs[i])
      case Abort(_) =>
      case Stop(_) =>
      case Continue(t) =>
        RunIsSteady(p, t, obs, i + 1);
    }
  }

  /** A whole test that completes reports between one sample and the
      sample cap, with at least the minimum number unless the cap came first,
      and its `transfer_count` is the number of requests made after the hello. */
  lemma TestCompletes(p: Params, hello: Option<string>, obs: seq<Observation>)
    ensures var r := Test(p, hello, obs);
      r.Completed? ==>
        1 <= |r.final.samples| <= Max(p.maxSamples, 1)
        && (|r.final.samples| >= p.maxSamples || |r.final.samples| >= p.minSamples)
        && r.final.transferCount == r.used
        && r.final.bps.weight == p.weight != 0.0
        && r.summary.rate == r.final.bps.Average() && r.summary.transferred == r.final.bytesSum
        && r.summary.showsSpread == (|r.final.samples| > 1)
  {
    if hello.Some? && HelloOk(hello.value) {
      StartIsSteady(p);
      RunIsSteady(p, Start(p), obs, 0);
      var r := Run(p, Start(p), obs, 0);
      assert Test(p, hello, obs) == r;
      if r.Completed? {
        assert Summarize(r.final) == Some(r.summary);
      }
    }
  }

  /** With a minimum at or above the cap, the convergence test never fires
      first: a completed test holds exactly `max(maximum_samples, 1)` samples. */
  lemma CapDecidesWhenMinimumReachesIt(p: Params, hello: Option<string>, obs: seq<Observation>)
    requires p.minSamples >= p.maxSamples
    ensures var r := Test(p, hello, obs);
      r.Completed? ==> |r.final.samples| == Max(p.maxSamples, 1)
  {
    if hello.Some? && HelloOk(hello.value) {
      StartIsSteady(p);
      RunIsSteady(p, Start(p), obs, 0);
    }
  }

  /** Only the requests up to the stopping one matter: a run that ended
      (completed or aborted) ends the same way whatever follows. */
  lemma {:induction false} RunIgnoresLater(p: Params, s: Session, obs: seq<Observation>, more: seq<Observation>, i: nat)
    requires Weighted(p, s) && i <= |obs|
    requires !Run(p, s, obs, i).Unfinished?
    ensures Run(p, s, obs + more, i) == Run(p, s, obs, i)
    decreases |obs| - i
  {
    assert (obs + more)[i] == obs[i];
    StepKeepsWeights(p, s, obs[i]);
    match Step(p, s, obs[i])
    case Abort(_) =>
    case Stop(_) =>
    case Continue(t) =>
      RunIgnoresLater(p, t, obs, more, i + 1);
  }

  /** Once ramp-up is over it never returns: every later request either
      ends the test or keeps ramp-up off, and the samples only grow. */
  lemma RampUpNeverReturns(p: Params, s: Session, o: Observation)
    requires Weighted(p, s) && !s.rampup
    ensures Step(p, s, o).Continue? ==> !Step(p, s, o).next.rampup && s.samples <= Step(p, s, o).next.samples
    ensures Step(p, s, o).Stop? ==> !Step(p, s, o).last.rampup && s.samples <= Step(p, s, o).last.samples
  {
  }

  /** The same along a whole run: from a session past ramp-up, the session
      the run stops or runs out in is past ramp-up and its samples extend
      the ones it started with. */
  lemma {:induction false} RunStaysOutOfRampUp(p: Params, s: Session, obs: seq<Observation>, i: nat)
    requires Weighted(p, s) && !s.rampup
    ensures var r := Run(p, s, obs, i);
      (r.Completed? ==> !r.final.rampup && s.samples <= r.final.samples)
      && (r.Unfinished? ==> !r.current.rampup && s.samples <= r.current.samples)
    decreases |obs| - i
  {
    if i < |obs| {
      StepKeepsWeights(p, s, obs[i]);
      RampUpNeverReturns(p, s, obs[i]);
      match Step(p, s, obs[i])
      case Abort(_) =>
      case Stop(_) =>
      case Continue(t) =>
        RunStaysOutOfRampUp(p, t, obs, i + 1);
    }
  }
}
