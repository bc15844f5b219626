/** The older command-line tester of lib/qospeedtest/cli.py: its own EWMA,
    which takes a state of zero to mean "no sample yet", the `pretty_number`
    scaler, and a simpler `do_test` loop that keeps requesting until a
    sample's rate falls below the smoothed rate. */
module Cli {
  import opened Common
  import Q = QoSpeedTest
  import C = Client

  // ---------------------------------------------------------------------------
  // EWMA with a zero sentinel
  // ---------------------------------------------------------------------------

  /** The abstract value of the old `EWMA` object: its weight and its scaled
      accumulator, which starts at zero. */
  datatype EwmaState = EwmaState(weight: real, state: real)
  {
    /** The smoothed value; Python divides by the weight here. */
    function Average(): real
      requires weight != 0.0
    {
      state / weight
    }

    /** Whenever the accumulator is zero the sample seeds it with
        `v * weight`; otherwise it moves by `v - state / weight`. */
    function Add(v: real): (e: EwmaState)
      requires state == 0.0 || weight != 0.0
      ensures e.weight == weight
      ensures state == 0.0 ==> e.state == v * weight
    {
      if state == 0.0 then EwmaState(weight, v * weight)
      else EwmaState(weight, state + v - state / weight)
    }
  }

  /** The state of a new `EWMA(weight)`. */
  function NewEwma(weight: real): EwmaState
  {
    EwmaState(weight, 0.0)
  }

  class Ewma {
    const weight: real
    var state: real

    function Value(): EwmaState
      reads this
    {
      EwmaState(weight, state)
    }

    constructor (weight: real)
      ensures Value() == NewEwma(weight)
    {
      this.weight := weight;
      state := 0.0;
    }

    method AddDatapoint(number: real)
      requires state == 0.0 || weight != 0.0
      modifies this
      ensures Value() == old(Value()).Add(number)
    {
      if state == 0.0 {
        state := number * weight;
      } else {
        state := state + (number - state / weight);
      }
    }

    function GetAverage(): real
      reads this
      requires weight != 0.0
    {
      Value().Average()
    }
  }

  /** Whenever the accumulator is zero, not only at the start, the next
      sample becomes the average. */
  lemma ZeroStateSeeds(e: EwmaState, v: real)
    requires e.weight != 0.0 && e.state == 0.0
    ensures e.Add(v).Average() == v
  {
    Q.MulDiv(v, e.weight);
  }

  /** The old smoother agrees with the one of lib/qospeedtest/__init__.py
      step for step as long as its accumulator is not zero: a zero state
      acts like the `_initial` flag, and any other state like a cleared one. */
  lemma AgreesWithFlaggedEwma(e: EwmaState, v: real, seeded: real)
    requires e.weight != 0.0
    ensures e.state != 0.0 ==> e.Add(v).state == Q.EwmaState(e.weight, e.state, false).Add(v).state
    ensures e.state == 0.0 ==> e.Add(v).state == Q.NewEwma(e.weight, seeded).Add(v).state
    ensures e.Add(v).Average() - v == if e.state == 0.0 then 0.0 else (e.Average() - v) * (1.0 - 1.0 / e.weight)
  {
    if e.state == 0.0 {
      ZeroStateSeeds(e, v);
    } else {
      Q.LaterAddMovesTowards(Q.EwmaState(e.weight, e.state, false), v);
    }
  }

  /** Where the two smoothers part: after a first sample of rate 0 the old
      accumulator is still zero, so a second sample of 8 is taken as a fresh
      start (average 8), while the flagged smoother applies its recurrence
      (average 1). */
  lemma ZeroFirstSampleReseeds()
    ensures NewEwma(8.0).Add(0.0).Add(8.0).Average() == 8.0
    ensures Q.NewEwma(8.0, 0.0).Add(0.0).Add(8.0).Average() == 1.0
  {
    var zero := EwmaState(8.0, 0.0);
    assert NewEwma(8.0).Add(0.0) == zero;
    assert zero.Add(8.0) == EwmaState(8.0, 64.0);
    assert EwmaState(8.0, 64.0).Average() == 8.0;
    var cleared := Q.EwmaState(8.0, 0.0, false);
    assert Q.NewEwma(8.0, 0.0).Add(0.0) == cleared;
    assert cleared.Add(8.0) == Q.EwmaState(8.0, 8.0, false);
    assert Q.EwmaState(8.0, 8.0, false).Average() == 1.0;
  }

  // ---------------------------------------------------------------------------
  // pretty_number
  // ---------------------------------------------------------------------------

  /** `pretty_number(n, divisor, rollover, limit)` without the final string
      formatting: the scaling loop of `si_number`, with the binary column
      chosen exactly when the divisor is 1024. A zero divisor raises at the
      first division, which happens unless the loop stops before it. */
  method PrettyNumber(n: real, divisor: real, rollover: real, limit: int) returns (r: Option<Q.Scaled>)
    ensures divisor == 0.0 ==>
      (r.None? <==> !(n < 0.0) && 0 < Q.EffectiveLimit(limit))
      && (r.Some? ==> r.value == Q.Scaled(n, ""))
    ensures divisor != 0.0 ==>
      var c := Q.Divisions(n, divisor, divisor * rollover, Q.EffectiveLimit(limit), 0);
      r.Some? && r.value.value == n / Pow(divisor, c) && r.value.prefix == Q.PrefixAt(c, divisor == 1024.0)
  {
    if divisor == 0.0 {
      if n < divisor * rollover || 0 >= Q.EffectiveLimit(limit) {
        return Some(Q.Scaled(n, ""));
      }
      return None;
    }
    var s := Q.ScaleDown(n, divisor, divisor * rollover, Q.EffectiveLimit(limit), divisor == 1024.0);
    r := Some(s);
  }

  /** The prefix `pretty_number` picks after `c` divisions is a binary one,
      ending in "i", exactly when the divisor is 1024, and none when no
      division was made. */
  lemma PrettyPrefix(c: nat, divisor: real)
    requires c <= |Q.Prefixes|
    ensures var p := Q.PrefixAt(c, divisor == 1024.0);
      (p == "" <==> c == 0)
      && (c > 0 ==> (p[|p| - 1] == 'i' <==> divisor == 1024.0))
  {
  }

  // ---------------------------------------------------------------------------
  // The do_test loop
  // ---------------------------------------------------------------------------

  /** The command-line settings the loop reads. */
  datatype Params = Params(mode: C.Mode, weight: real, target: real, initialDownload: int, initialUpload: int)

  /** What one request gives back: the body length of a download (unused for
      an upload, whose size is the payload sent) and the transfer time in
      seconds; or a failed request. */
  datatype Observation = Fetched(bytes: int, elapsed: real) | Failed

  /** The loop's variables between two requests. */
  datatype Session = Session(projected: int, ewma: EwmaState, total: int, rawCount: nat, transferCount: nat)

  datatype Error =
    | TransportError    // the request failed
    | NegativePayload   // an upload of a negative size: the random payload cannot be made
    | ZeroElapsed       // a transfer time of zero: division by zero
    | ZeroWeight        // an EWMA weight of zero: division by zero at the first average

  datatype StepResult = Abort(error: Error) | Continue(next: Session) | Stop(last: Session)

  /** How a run ends: an error, a stop after `used` observations with the
      reported rate in bits per second, or the observations ran out. */
  datatype Outcome =
    | Aborted(error: Error)
    | Completed(final: Session, used: nat, rate: real)
    | Unfinished(current: Session)

  /** How much `raw_count` grows per transfer: 1 for a download, 2 for an
      upload. */
  function RawPerTransfer(mode: C.Mode): nat
  {
    if mode == C.Download then 1 else 2
  }

  function Start(p: Params): Session
  {
    Session(if p.mode == C.Download then p.initialDownload else p.initialUpload, NewEwma(p.weight), 0, 1, 0)
  }

  /** The bytes one transfer moves: what came back for a download, the
      payload sent for an upload. */
  function TransferBytes(p: Params, s: Session, o: Observation): int
    requires o.Fetched?
  {
    if p.mode == C.Download then o.bytes else s.projected
  }

  /** The size of the next request: `int(average * target_seconds)`. */
  function NextSize(p: Params, average: real): int
  {
    Trunc(average * p.target)
  }

  /** One pass of the loop body: count the transfer, compute its rate, feed
      it to the EWMA, then stop when the rate is below the new average or
      resize the next request to `int(average * target)`. */
  function Step(p: Params, s: Session, o: Observation): StepResult
    requires s.ewma.weight == p.weight
  {
    if p.mode == C.Upload && s.projected < 0 then Abort(NegativePayload)
    else match o
    case Failed => Abort(TransportError)
    case Fetched(bytes, elapsed) =>
      if elapsed == 0.0 then Abort(ZeroElapsed)
      else if p.weight == 0.0 then Abort(ZeroWeight)
      else
        var transfer := TransferBytes(p, s, o);
        var bps := transfer as real / elapsed;
        var e := s.ewma.Add(bps);
        var t := Session(s.projected, e, s.total + transfer, s.rawCount + RawPerTransfer(p.mode), s.transferCount + 1);
        if bps < e.Average() then Stop(t)
        else Continue(t.(projected := NextSize(p, e.Average())))
  }

  lemma StepKeepsWeight(p: Params, s: Session, o: Observation)
    requires s.ewma.weight == p.weight
    ensures Step(p, s, o).Continue? ==> Step(p, s, o).next.ewma.weight == p.weight
    ensures Step(p, s, o).Stop? ==> Step(p, s, o).last.ewma.weight == p.weight && p.weight != 0.0
  {
  }

  /** The loop over the observations from index `i` on; a stop reports the
      average times 8 as the rate in bits per second. */
  function Run(p: Params, s: Session, obs: seq<Observation>, i: nat): (r: Outcome)
    requires s.ewma.weight == p.weight
    ensures r.Completed? ==> i < r.used <= |obs| && r.final.ewma.weight == p.weight != 0.0
    decreases |obs| - i
  {
    if i >= |obs| then Unfinished(s)
    else
      StepKeepsWeight(p, s, obs[i]);
      match Step(p, s, obs[i])
      case Abort(e) => Aborted(e)
      case Stop(t) => Completed(t, i + 1, t.ewma.Average() * 8.0)
      case Continue(t) => Run(p, t, obs, i + 1)
  }

  /** `do_test`: a failed hello request aborts; the reply is not inspected. */
  function Test(p: Params, helloOk: bool, obs: seq<Observation>): (r: Outcome)
    ensures r.Completed? ==> helloOk && 0 < r.used <= |obs|
  {
    if !helloOk then Aborted(TransportError) else Run(p, Start(p), obs, 0)
  }

  /** One pass of the loop body on the live EWMA object. */
  method Exchange(p: Params, o: Observation, ewma: Ewma, projected: int, total: int, rawCount: nat, transferCount: nat)
    returns (r: StepResult)
    requires ewma.weight == p.weight
    modifies ewma
    ensures r == Step(p, Session(projected, old(ewma.Value()), total, rawCount, transferCount), o)
    ensures r.Continue? ==> r.next.ewma == ewma.Value()
    ensures r.Stop? ==> r.last.ewma == ewma.Value()
  {
    if p.mode == C.Upload && projected < 0 {
      return Abort(NegativePayload);
    }
    if o.Failed? {
      return Abort(TransportError);
    }
    var transfer := if p.mode == C.Download then o.bytes else projected;
    var raw := rawCount + RawPerTransfer(p.mode);
    if o.elapsed == 0.0 {
      return Abort(ZeroElapsed);
    }
    var bps := transfer as real / o.elapsed;
    if p.weight == 0.0 {
      return Abort(ZeroWeight);
    }
    ewma.AddDatapoint(bps);
    var average := ewma.GetAverage();
    var t := Session(projected, ewma.Value(), total + transfer, raw, transferCount + 1);
    if bps < average {
      return Stop(t);
    }
    return Continue(t.(projected := NextSize(p, average)));
  }

  /** `do_test` with the EWMA object and the counters updated in place; it
      ends exactly as `Test` says. */
  method DoTest(p: Params, helloOk: bool, obs: seq<Observation>) returns (outcome: Outcome)
    ensures outcome == Test(p, helloOk, obs)
  {
    if !helloOk {
      return Aborted(TransportError);
    }
    var projected := if p.mode == C.Download then p.initialDownload else p.initialUpload;
    var ewma := new Ewma(p.weight);
    var total := 0;
    var rawCount: nat := 1;
    var transferCount: nat := 0;
    var i := 0;
    while i < |obs|
      invariant 0 <= i <= |obs|
      invariant ewma.weight == p.weight
      invariant Test(p, helloOk, obs) == Run(p, Session(projected, ewma.Value(), total, rawCount, transferCount), obs, i)
      decreases |obs| - i
    {
      ghost var s := Session(projected, ewma.Value(), total, rawCount, transferCount);
      var r := Exchange(p, obs[i], ewma, projected, total, rawCount, transferCount);
      assert r == Step(p, s, obs[i]);
      match r
      case Abort(e) =>
        return Aborted(e);
      case Stop(t) =>
        return Completed(t, i + 1, ewma.GetAverage() * 8.0);
      case Continue(t) =>
        projected, total, rawCount, transferCount := t.projected, t.total, t.rawCount, t.transferCount;
        i := i + 1;
    }
    return Unfinished(Session(projected, ewma.Value(), total, rawCount, transferCount));
  }

  // ---------------------------------------------------------------------------
  // What the loop guarantees
  // ---------------------------------------------------------------------------

  /** A transfer that can be measured (non-zero time, non-zero weight) is
      counted, its bytes added to the total, and then the loop stops exactly
      when its rate is below the updated average; otherwise the next request
      asks for `int(average * target)` bytes. */
  lemma StepStopsBelowAverage(p: Params, s: Session, o: Observation)
    requires s.ewma.weight == p.weight && o.Fetched?
    ensures (Step(p, s, o).Abort? <==> (p.mode == C.Upload && s.projected < 0) || o.elapsed == 0.0 || p.weight == 0.0)
    ensures !Step(p, s, o).Abort? ==>
      var bps := TransferBytes(p, s, o) as real / o.elapsed;
      var e := s.ewma.Add(bps);
      var t := if Step(p, s, o).Stop? then Step(p, s, o).last else Step(p, s, o).next;
      (Step(p, s, o).Stop? <==> bps < e.Average())
      && t.ewma == e
      && t.total == s.total + TransferBytes(p, s, o)
      && t.rawCount == s.rawCount + RawPerTransfer(p.mode)
      && t.transferCount == s.transferCount + 1
      && (Step(p, s, o).Continue? ==> t.projected == NextSize(p, e.Average()))
  {
    if !(p.mode == C.Upload && s.projected < 0) && o.elapsed != 0.0 && p.weight != 0.0 {
      var transfer := TransferBytes(p, s, o);
      var bps := transfer as real / o.elapsed;
      var e := s.ewma.Add(bps);
      var t := Session(s.projected, e, s.total + transfer, s.rawCount + RawPerTransfer(p.mode), s.transferCount + 1);
      if bps < e.Average() {
        assert Step(p, s, o) == Stop(t);
      } else {
        assert Step(p, s, o) == Continue(t.(projected := NextSize(p, e.Average())));
      }
    }
  }

  /** The next request carries as many whole bytes as the smoothed rate
      moves in the target time: a non-negative count, at most one byte short. */
  lemma NextSizeAimsAtTarget(p: Params, average: real)
    requires average >= 0.0 && p.target >= 0.0
    ensures NextSize(p, average) >= 0
    ensures NextSize(p, average) as real <= average * p.target < NextSize(p, average) as real + 1.0
  {
    assert average * p.target >= 0.0;
  }

  /** A sample taken while the accumulator is zero (the first one above
      all) becomes the average, so it cannot be below it: no stop. */
  lemma FirstSampleNeverStops(p: Params, s: Session, o: Observation)
    requires s.ewma.weight == p.weight && s.ewma.state == 0.0
    ensures !Step(p, s, o).Stop?
  {
    if o.Fetched? && o.elapsed != 0.0 && p.weight != 0.0 {
      ZeroStateSeeds(s.ewma, TransferBytes(p, s, o) as real / o.elapsed);
    }
  }

  /** With a weight above 1 and a seeded accumulator, the new average lies on
      the same side of the sample as the old one, so the loop stops exactly
      when the sample is below the average it had before. */
  lemma StopsBelowPreviousAverage(p: Params, s: Session, o: Observation)
    requires s.ewma.weight == p.weight && p.weight > 1.0 && s.ewma.state != 0.0
    requires o.Fetched? && o.elapsed != 0.0 && !(p.mode == C.Upload && s.projected < 0)
    ensures Step(p, s, o).Stop? <==> TransferBytes(p, s, o) as real / o.elapsed < s.ewma.Average()
  {
    var bps := TransferBytes(p, s, o) as real / o.elapsed;
    AgreesWithFlaggedEwma(s.ewma, bps, 0.0);
    var f := 1.0 - 1.0 / p.weight;
    assert f > 0.0;
    var d := s.ewma.Average() - bps;
    assert s.ewma.Add(bps).Average() - bps == d * f;
    assert d > 0.0 <==> d * f > 0.0;
  }

  /** The counters' invariant: `raw_count` is one (the hello request) plus
      one raw request per download or two per upload. */
  predicate Counted(p: Params, s: Session)
  {
    s.rawCount == 1 + RawPerTransfer(p.mode) * s.transferCount
  }

  /** The bytes received by the downloads of `obs[i..j]`. */
  function Received(obs: seq<Observation>, i: nat, j: nat): int
    requires i <= j <= |obs|
    decreases j - i
  {
    if i == j then 0
    else (if obs[i].Fetched? then obs[i].bytes else 0) + Received(obs, i + 1, j)
  }

  /** One request keeps the counters' invariant, adds one transfer and, for
      a download, the bytes received. */
  lemma StepCounts(p: Params, s: Session, o: Observation)
    requires s.ewma.weight == p.weight && Counted(p, s)
    ensures var r := Step(p, s, o);
      !r.Abort? ==>
        var t := if r.Stop? then r.last else r.next;
        Counted(p, t) && t.transferCount == s.transferCount + 1
        && (p.mode == C.Download ==> o.Fetched? && t.total == s.total + o.bytes)
  {
  }

  /** Along a run every request keeps the counters' invariant and adds one
      transfer; for a download the total grows by the bytes received. A
      completed run reports eight times its final average. */
  lemma {:induction false} RunCounts(p: Params, s: Session, obs: seq<Observation>, i: nat)
    requires s.ewma.weight == p.weight && Counted(p, s) && i <= |obs|
    ensures var r := Run(p, s, obs, i);
      (r.Completed? ==>
        Counted(p, r.final)
        && r.final.transferCount == s.transferCount + (r.used - i)
        && r.rate == r.final.ewma.Average() * 8.0
        && (p.mode == C.Download ==> r.final.total == s.total + Received(obs, i, r.used)))
      && (r.Unfinished? ==>
        Counted(p, r.current)
        && r.current.transferCount == s.transferCount + (|obs| - i)
        && (p.mode == C.Download ==> r.current.total == s.total + Received(obs, i, |obs|)))
    decreases |obs| - i
  {
    if i < |obs| {
      StepKeepsWeight(p, s, obs[i]);
      StepCounts(p, s, obs[i]);
      match Step(p, s, obs[i])
      case Abort(e) =>
      case Stop(t) =>
        assert Received(obs, i, i + 1) == (if obs[i].Fetched? then obs[i].bytes else 0) + Received(obs, i + 1, i + 1);
      case Continue(t) =>
        RunCounts(p, t, obs, i + 1);
        var r := Run(p, t, obs, i + 1);
        if r.Completed? {
          assert Received(obs, i, r.used) == (if obs[i].Fetched? then obs[i].bytes else 0) + Received(obs, i + 1, r.used);
        } else if r.Unfinished? {
          assert Received(obs, i, |obs|) == (if obs[i].Fetched? then obs[i].bytes else 0) + Received(obs, i + 1, |obs|);
        }
    }
  }

  /** A completed test took at least two transfers (the first can never
      stop), counted them all, and `raw_count` is one more than one or two
      per transfer. */
  lemma TestCompletes(p: Params, helloOk: bool, obs: seq<Observation>)
    requires Test(p, helloOk, obs).Completed?
    ensures var r := Test(p, helloOk, obs);
      2 <= r.used <= |obs|
      && r.final.transferCount == r.used
      && r.final.rawCount == 1 + RawPerTransfer(p.mode) * r.used
      && r.rate == r.final.ewma.Average() * 8.0
  {
    var s := Start(p);
    RunCounts(p, s, obs, 0);
    FirstSampleNeverStops(p, s, obs[0]);
  }
}
